/** The HTTP handlers of MedAIClerk-Backend/main.py: input selection and
    validation, prompt rendering, the single generator call and the mapping
    of its outcome to a response; plus `/health` and the start-up order in
    which the configuration is read.

    The generator is a parameter (the process-wide provider's `generate`);
    a `Reply` records every prompt the handler passed to it, so that "no
    generation call" is a statement about the reply. */
module Handlers {
  import opened Results
  import opened Text
  import opened Environment
  import Provider

  /** A JSON body with one text field, or an HTTPException. */
  datatype Response =
    | Json(field: string, text: string)
    | HttpError(status: nat, detail: string)

  /** The response and the prompts given to the generator, in order. */
  datatype Reply = Reply(response: Response, prompts: seq<string>)

  type Generator = string -> Result<string>

  const MinLength := 10
  const SoapTooShort := "Patient notes must be at least 10 characters long."
  const IcdTooShort := "Provide a SOAP note or notes of at least 10 characters."
  const LlmErrorPrefix := "LLM error: "

  // ---------------------------------------------------------------------
  // Prompt templates (main.py:39-46, 59-70)
  // ---------------------------------------------------------------------

  /** A line break followed by the four spaces of source indentation that
      the triple-quoted templates carry on every line. */
  const Indent := "\n    "

  // The template lines below are the source's, each split into pieces of
  // at most a few dozen characters: the verifier reasons about short
  // literals far more cheaply than about long ones.

  const SoapHeadings := "Subjective" + ", " + "Objective" + ", " + "Assessment" + ", " + "Plan" + "."

  /** The SOAP template up to the notes, with its first line break and
      indentation already stripped. */
  const SoapIntro := SoapLead + SoapHeadings + SoapTail

  const SoapLead :=
    "You are an AI assistant designed " + "to help medical professionals." + Indent
    + "Convert the following into a " + "structured SOAP note with headings:" + Indent

  const SoapTail := "\n" + Indent + "Notes:" + Indent

  /** The f-string before `.strip()`. */
  function SoapTemplate(text: string): string {
    Indent + SoapIntro + text + Indent
  }

  function SoapPrompt(text: string): string {
    Strip(SoapTemplate(text))
  }

  const IcdIntro :=
    "Based on the following clinical " + "text, identify the most relevant " + "ICD-10 codes." + Indent
    + "For each code, provide a brief " + "justification." + "\n" + Indent
    + "Clinical Text:" + Indent

  const IcdCodeLine := "Code: <ICD-10 Code> - <Description>"
  const IcdJustificationLine := "Justification: <reason>"

  const IcdOutro :=
    "\n" + Indent + "---" + Indent
    + "Respond ONLY in this format:" + Indent
    + IcdCodeLine + Indent
    + IcdJustificationLine

  function IcdTemplate(text: string): string {
    Indent + IcdIntro + text + IcdOutro + Indent
  }

  function IcdPrompt(text: string): string {
    Strip(IcdTemplate(text))
  }

  lemma IndentIsSpace()
    ensures AllSpace(Indent)
  {
  }

  /** For a trimmed, non-empty text the stripped template is the intro
      followed by exactly that text: the prompt ends with the notes. */
  lemma SoapPromptShape(text: string)
    requires text != [] && NoEdgeSpace(text)
    ensures SoapPrompt(text) == SoapIntro + text
  {
    SoapBodyEdges(text);
    IndentFrame(SoapTemplate(text), SoapIntro + text);
  }

  lemma SoapBodyEdges(text: string)
    requires text != [] && NoEdgeSpace(text)
    ensures NoEdgeSpace(SoapIntro + text)
  {
    var m := SoapIntro + text;
    assert m[0] == 'Y' && m[|m| - 1] == text[|text| - 1];
  }

  /** Stripping removes exactly one indentation on each side of `m`. */
  lemma IndentFrame(s: string, m: string)
    requires NoEdgeSpace(m) && s == Indent + m + Indent
    ensures Strip(s) == m
  {
    IndentIsSpace();
    StripFrame(Indent, m, Indent);
  }

  /** The ICD template starts and ends with text of its own, so stripping
      only removes its first and last indentation, whatever the text. */
  lemma IcdPromptShape(text: string)
    ensures IcdPrompt(text) == IcdIntro + text + IcdOutro
  {
    IcdBodyEdges(text);
    IndentFrame(IcdTemplate(text), IcdIntro + text + IcdOutro);
  }

  lemma IcdBodyEdges(text: string)
    ensures NoEdgeSpace(IcdIntro + text + IcdOutro)
  {
    var m := IcdIntro + text + IcdOutro;
    assert m[0] == 'B' && m[|m| - 1] == '>';
  }

  /** The SOAP prompt names the four sections and ends with the notes. */
  lemma SoapPromptContents(text: string)
    requires text != [] && NoEdgeSpace(text)
    ensures Contains(SoapPrompt(text), "Subjective") && Contains(SoapPrompt(text), "Objective")
    ensures Contains(SoapPrompt(text), "Assessment") && Contains(SoapPrompt(text), "Plan")
    ensures EndsWith(SoapPrompt(text), text)
  {
    SoapPromptShape(text);
    SoapSections(SoapPrompt(text), text);
  }

  lemma SoapSections(p: string, text: string)
    requires p == SoapIntro + text
    ensures Contains(p, "Subjective") && Contains(p, "Objective")
    ensures Contains(p, "Assessment") && Contains(p, "Plan")
    ensures EndsWith(p, text)
  {
    HeadingsNamed();
    HeadingIn(text, "Subjective", 0);
    HeadingIn(text, "Objective", 12);
    HeadingIn(text, "Assessment", 23);
    HeadingIn(text, "Plan", 35);
  }

  lemma HeadingsNamed()
    ensures OccursAt(SoapHeadings, "Subjective", 0) && OccursAt(SoapHeadings, "Objective", 12)
    ensures OccursAt(SoapHeadings, "Assessment", 23) && OccursAt(SoapHeadings, "Plan", 35)
  {
  }

  lemma HeadingIn(text: string, t: string, k: int)
    requires OccursAt(SoapHeadings, t, k)
    ensures Contains(SoapIntro + text, t)
  {
    OccursPrepend(SoapLead, SoapHeadings, t, k);
    OccursAppend(SoapLead + SoapHeadings, SoapTail, t, |SoapLead| + k);
    OccursAppend(SoapIntro, text, t, |SoapLead| + k);
  }

  /** The ICD prompt holds the clinical text and both format lines. */
  lemma IcdPromptContents(text: string)
    ensures Contains(IcdPrompt(text), text)
    ensures Contains(IcdPrompt(text), IcdCodeLine)
    ensures Contains(IcdPrompt(text), IcdJustificationLine)
  {
    IcdPromptShape(text);
    IcdLines(IcdPrompt(text), text);
  }

  lemma IcdLines(p: string, text: string)
    requires p == IcdIntro + text + IcdOutro
    ensures Contains(p, text) && Contains(p, IcdCodeLine) && Contains(p, IcdJustificationLine)
  {
    ContainsMiddle(IcdIntro, text, IcdOutro);
    assert OccursAt(IcdOutro, IcdCodeLine, 47);
    assert OccursAt(IcdOutro, IcdJustificationLine, 87);
    OccursPrepend(IcdIntro + text, IcdOutro, IcdCodeLine, 47);
    OccursPrepend(IcdIntro + text, IcdOutro, IcdJustificationLine, 87);
  }

  // ---------------------------------------------------------------------
  // Handlers (main.py:34-76)
  // ---------------------------------------------------------------------

  /** The shared tail of both handlers: one generator call, its text under
      `field` on success, a 500 naming the cause on failure. */
  function Respond(field: string, prompt: string, generate: Generator): (r: Reply)
    ensures r.prompts == [prompt]
    ensures r.response.Json? <==> generate(prompt).Ok?
    ensures generate(prompt).Ok? ==> r.response == Json(field, generate(prompt).value)
    ensures generate(prompt).Err? ==>
      r.response == HttpError(500, LlmErrorPrefix + generate(prompt).message)
  {
    match generate(prompt)
    case Ok(content) => Reply(Json(field, content), [prompt])
    case Err(e) => Reply(HttpError(500, LlmErrorPrefix + e), [prompt])
  }

  /** `POST /api/generate-soap-note`. */
  function GenerateSoapNote(notes: string, generate: Generator): (r: Reply)
    ensures |Strip(notes)| < MinLength <==> r.prompts == []
    ensures |Strip(notes)| < MinLength ==> r.response == HttpError(400, SoapTooShort)
    ensures |Strip(notes)| >= MinLength ==> r.prompts == [SoapPrompt(Strip(notes))]
    ensures |Strip(notes)| >= MinLength && generate(r.prompts[0]).Ok? ==>
      r.response == Json("soap_note", generate(r.prompts[0]).value)
    ensures |Strip(notes)| >= MinLength && generate(r.prompts[0]).Err? ==>
      r.response == HttpError(500, LlmErrorPrefix + generate(r.prompts[0]).message)
    ensures r.response.HttpError? && r.response.status == 400 ==> r.prompts == []
    ensures r.response.Json? ==>
      |r.prompts| == 1 && r.response.field == "soap_note" && generate(r.prompts[0]) == Ok(r.response.text)
    ensures r.response.HttpError? && r.response.status != 400 ==>
      |r.prompts| == 1 && generate(r.prompts[0]).Err?
      && r.response == HttpError(500, LlmErrorPrefix + generate(r.prompts[0]).message)
  {
    var text := Strip(notes);
    if |text| < MinLength then Reply(HttpError(400, SoapTooShort), [])
    else Respond("soap_note", SoapPrompt(text), generate)
  }

  /** `soap_note or notes or ""`: under Python's truthiness both `None` and
      the empty string are false. */
  predicate Truthy(o: Option<string>) {
    o.Some? && o.value != ""
  }

  function IcdInput(soapNote: Option<string>, notes: Option<string>): (r: string)
    ensures Truthy(soapNote) ==> r == soapNote.value
    ensures !Truthy(soapNote) && Truthy(notes) ==> r == notes.value
    ensures !Truthy(soapNote) && !Truthy(notes) ==> r == ""
  {
    if Truthy(soapNote) then soapNote.value
    else if Truthy(notes) then notes.value
    else ""
  }

  /** `POST /api/suggest-icd-codes`. */
  function SuggestIcdCodes(soapNote: Option<string>, notes: Option<string>, generate: Generator): (r: Reply)
    ensures |Strip(IcdInput(soapNote, notes))| < MinLength <==> r.prompts == []
    ensures |Strip(IcdInput(soapNote, notes))| < MinLength ==> r.response == HttpError(400, IcdTooShort)
    ensures |Strip(IcdInput(soapNote, notes))| >= MinLength ==>
      r.prompts == [IcdPrompt(Strip(IcdInput(soapNote, notes)))]
    ensures |Strip(IcdInput(soapNote, notes))| >= MinLength && generate(r.prompts[0]).Ok? ==>
      r.response == Json("icd_codes", generate(r.prompts[0]).value)
    ensures |Strip(IcdInput(soapNote, notes))| >= MinLength && generate(r.prompts[0]).Err? ==>
      r.response == HttpError(500, LlmErrorPrefix + generate(r.prompts[0]).message)
    ensures r.response.HttpError? && r.response.status == 400 ==> r.prompts == []
    ensures r.response.Json? ==>
      |r.prompts| == 1 && r.response.field == "icd_codes" && generate(r.prompts[0]) == Ok(r.response.text)
    ensures r.response.HttpError? && r.response.status != 400 ==>
      |r.prompts| == 1 && generate(r.prompts[0]).Err?
      && r.response == HttpError(500, LlmErrorPrefix + generate(r.prompts[0]).message)
  {
    var text := Strip(IcdInput(soapNote, notes));
    if |text| < MinLength then Reply(HttpError(400, IcdTooShort), [])
    else Respond("icd_codes", IcdPrompt(text), generate)
  }

  /** A valid SOAP request sends one prompt, holding the trimmed notes at
      its end and the four section headings. */
  lemma SoapNotePrompt(notes: string, generate: Generator)
    requires |Strip(notes)| >= MinLength
    ensures var p := GenerateSoapNote(notes, generate).prompts;
      |p| == 1 && EndsWith(p[0], Strip(notes))
      && Contains(p[0], "Subjective") && Contains(p[0], "Objective")
      && Contains(p[0], "Assessment") && Contains(p[0], "Plan")
  {
    StripIdempotent(notes);
    var text := Strip(notes);
    assert StripAt(notes, Lead(notes), Lead(notes) + |text|);
    SoapPromptContents(text);
  }

  /** A valid ICD request sends one prompt, holding the trimmed text and
      the two format lines. */
  lemma IcdCodesPrompt(soapNote: Option<string>, notes: Option<string>, generate: Generator)
    requires |Strip(IcdInput(soapNote, notes))| >= MinLength
    ensures var p := SuggestIcdCodes(soapNote, notes, generate).prompts;
      |p| == 1 && Contains(p[0], Strip(IcdInput(soapNote, notes)))
      && Contains(p[0], IcdCodeLine) && Contains(p[0], IcdJustificationLine)
  {
    IcdPromptContents(Strip(IcdInput(soapNote, notes)));
  }

  /** A non-empty SOAP note is used even when notes are given too. */
  lemma IcdPrefersSoapNote(soapNote: string, notes: Option<string>, generate: Generator)
    requires soapNote != "" && |Strip(soapNote)| >= MinLength
    ensures SuggestIcdCodes(Some(soapNote), notes, generate).prompts == [IcdPrompt(Strip(soapNote))]
  {
  }

  /** A whitespace-only SOAP note still wins the selection, and is then
      rejected: valid notes beside it are never looked at. */
  lemma BlankSoapNoteShadowsNotes(soapNote: string, notes: Option<string>, generate: Generator)
    requires soapNote != "" && AllSpace(soapNote)
    ensures SuggestIcdCodes(Some(soapNote), notes, generate) == Reply(HttpError(400, IcdTooShort), [])
  {
    StripEmpty(soapNote);
  }

  // ---------------------------------------------------------------------
  // Start-up and health (main.py:7-9, 21, 30-32)
  // ---------------------------------------------------------------------

  datatype HealthBody = HealthBody(status: string, mode: string)

  /** `GET /health`: the raw mode setting, not lower-cased, and whatever
      state the provider is in. */
  function Health(env: Env): (h: HealthBody)
    ensures h.status == "ok"
    ensures "LLM_MODE" !in env ==> h.mode == "api"
    ensures "LLM_MODE" in env ==> h.mode == env["LLM_MODE"]
  {
    HealthBody("ok", GetEnv(env, "LLM_MODE", "api"))
  }

  /** The provider configuration as the start-up order reads it: importing
      the provider module reads its settings from the process environment
      alone, before `load_dotenv()` runs; only the API key, read when the
      provider is constructed, sees the `.env` file. */
  function StartupConfigAsWritten(process: Env, dotenv: Env): (c: Provider.Config)
    ensures c.mode == Lower(GetEnv(process, "LLM_MODE", Provider.DefaultMode))
    ensures c.ossModelId == GetEnv(process, "OSS_MODEL_ID", Provider.DefaultOssModelId)
    ensures c.ossDevice == GetEnv(process, "OSS_DEVICE", Provider.DefaultOssDevice)
    ensures c.openaiModel == GetEnv(process, "OPENAI_MODEL", Provider.DefaultOpenaiModel)
    ensures c.openaiApiKey == Lookup(LoadDotenv(process, dotenv), "OPENAI_API_KEY")
  {
    var atImport := Provider.ConfigFromEnv(process);
    atImport.(openaiApiKey := Lookup(LoadDotenv(process, dotenv), "OPENAI_API_KEY"))
  }

  /** A mode given only in `.env` is reported by `/health` but ignored by
      the provider as the start-up order reads it. */
  lemma DotenvModeIgnoredAsWritten()
    ensures var process, dotenv := map[], map["LLM_MODE" := "oss"];
      Health(LoadDotenv(process, dotenv)).mode == "oss"
      && Provider.ModeOf(StartupConfigAsWritten(process, dotenv).mode) == Provider.Api
  {
    var process: Env, dotenv: Env := map[], map["LLM_MODE" := "oss"];
    assert "LLM_MODE" !in process;
    assert LoadDotenv(process, dotenv)["LLM_MODE"] == "oss";
  }

  /** Every setting read after `load_dotenv()`, from the merged environment. */
  function StartupConfig(process: Env, dotenv: Env): (c: Provider.Config)
    ensures c.mode == Lower(Health(LoadDotenv(process, dotenv)).mode)
    ensures c.ossModelId == GetEnv(LoadDotenv(process, dotenv), "OSS_MODEL_ID", Provider.DefaultOssModelId)
    ensures c.ossDevice == GetEnv(LoadDotenv(process, dotenv), "OSS_DEVICE", Provider.DefaultOssDevice)
    ensures c.openaiModel == GetEnv(LoadDotenv(process, dotenv), "OPENAI_MODEL", Provider.DefaultOpenaiModel)
    ensures c.openaiApiKey == Lookup(LoadDotenv(process, dotenv), "OPENAI_API_KEY")
  {
    Provider.ConfigFromEnv(LoadDotenv(process, dotenv))
  }

  /** With the corrected order the provider runs the backend that `/health`
      reports, up to letter case; a mode from `.env` is honoured unless the
      process environment sets one. */
  lemma HealthMatchesProvider(process: Env, dotenv: Env)
    ensures var h := Health(LoadDotenv(process, dotenv));
      Provider.ModeOf(StartupConfig(process, dotenv).mode) == Provider.Oss <==>
        |h.mode| == 3 && (h.mode[0] == 'o' || h.mode[0] == 'O')
        && (h.mode[1] == 's' || h.mode[1] == 'S') && (h.mode[2] == 's' || h.mode[2] == 'S')
    ensures "LLM_MODE" in dotenv && "LLM_MODE" !in process ==>
      StartupConfig(process, dotenv).mode == Lower(dotenv["LLM_MODE"])
  {
    LowerIsOss(Health(LoadDotenv(process, dotenv)).mode);
  }

  /** `/health` echoes the setting verbatim while the provider lower-cases it. */
  lemma HealthModeNotLowered()
    ensures var env := map["LLM_MODE" := "OSS"];
      Health(env).mode == "OSS" && Provider.ModeOf(Provider.ConfigFromEnv(env).mode) == Provider.Oss
  {
    var env := map["LLM_MODE" := "OSS"];
    LowerIsOss(env["LLM_MODE"]);
  }

  /** `llm = LLM()` at start-up, with the corrected configuration. */
  method Startup(process: Env, dotenv: Env, ld: Provider.Loaders) returns (r: Result<Provider.LLM>)
    ensures r.Ok? <==> Provider.Construct(StartupConfig(process, dotenv), ld).Ok?
    ensures r.Err? ==> r.message == Provider.Construct(StartupConfig(process, dotenv), ld).message
    ensures r.Ok? ==> fresh(r.value) && r.value.Ready() && r.value.config == StartupConfig(process, dotenv)
    ensures r.Ok? ==> r.value.Installed() == Provider.Construct(StartupConfig(process, dotenv), ld).value
  {
    r := Provider.Create(StartupConfig(process, dotenv), ld);
  }

  // ---------------------------------------------------------------------
  // Examples
  // ---------------------------------------------------------------------

  /** A generator answering with fixed text yields that text as the note. */
  lemma SoapNoteExample()
    ensures var notes := "Patient reports headache for 3 days.";
      var generate := (p: string) => Result<string>.Ok("Subjective: ...");
      GenerateSoapNote(notes, generate).response == Json("soap_note", "Subjective: ...")
  {
    var notes := "Patient reports headache for 3 days.";
    assert NoEdgeSpace(notes);
    StripFrame("", notes, "");
    assert "" + notes + "" == notes;
  }

  /** Notes that are too short are refused without calling the generator. */
  lemma ShortNotesExample(generate: Generator)
    ensures GenerateSoapNote("hi", generate) == Reply(HttpError(400, SoapTooShort), [])
  {
    StripFrame("", "hi", "");
    assert "" + "hi" + "" == "hi";
  }
}
