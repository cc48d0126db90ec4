/** The generation provider of MedAIClerk-Backend/llm_provider.py: a single
    `generate(prompt)` operation that dispatches, on a mode fixed at
    construction, to a hosted chat-completion API or to a locally loaded
    causal language model.

    The foreign libraries (the `openai` client, `torch`/`transformers`) are
    parameters: `Loaders` says what their construction-time calls return,
    `Runtime` what their per-request calls return. Handles they hand out are
    opaque values. */
module Provider {
  import opened Results
  import opened Text
  import opened Environment

  // ---------------------------------------------------------------------
  // Configuration (llm_provider.py:5-11)
  // ---------------------------------------------------------------------

  /** The settings the provider reads; the sampling temperature, the token
      limit and the quantization hint are pass-through values and are not
      part of the model. */
  datatype Config = Config(
    mode: string,
    ossModelId: string,
    ossDevice: string,
    openaiModel: string,
    openaiApiKey: Option<string>)

  const DefaultMode := "api"
  const DefaultOssModelId := "openai/gpt-oss-20b"
  const DefaultOssDevice := "cpu"
  const DefaultOpenaiModel := "gpt-4o-mini"

  /** The provider's settings read from one environment: the mode is
      lower-cased and defaults to "api". */
  function ConfigFromEnv(env: Env): (c: Config)
    ensures "LLM_MODE" !in env ==> c.mode == DefaultMode
    ensures "LLM_MODE" in env ==> c.mode == Lower(env["LLM_MODE"])
    ensures c.openaiApiKey == Lookup(env, "OPENAI_API_KEY")
    ensures c.ossModelId == GetEnv(env, "OSS_MODEL_ID", DefaultOssModelId)
    ensures c.ossDevice == GetEnv(env, "OSS_DEVICE", DefaultOssDevice)
    ensures c.openaiModel == GetEnv(env, "OPENAI_MODEL", DefaultOpenaiModel)
  {
    Config(
      Lower(GetEnv(env, "LLM_MODE", DefaultMode)),
      GetEnv(env, "OSS_MODEL_ID", DefaultOssModelId),
      GetEnv(env, "OSS_DEVICE", DefaultOssDevice),
      GetEnv(env, "OPENAI_MODEL", DefaultOpenaiModel),
      Lookup(env, "OPENAI_API_KEY"))
  }

  /** The closed set of backend strategies. */
  datatype Mode = Oss | Api

  /** Backend selection is an exact comparison of the (lower-cased) mode
      with "oss"; every other string, unknown ones included, is the API. */
  function ModeOf(mode: string): (m: Mode)
    ensures m == Oss <==> mode == "oss"
  {
    if mode == "oss" then Oss else Api
  }

  /** The local backend is selected exactly when the environment spells
      "oss" in any letter case; an unset mode selects the API. */
  lemma ModeFromEnv(env: Env)
    ensures ModeOf(ConfigFromEnv(env).mode) == Oss <==>
      "LLM_MODE" in env && |env["LLM_MODE"]| == 3
      && (env["LLM_MODE"][0] == 'o' || env["LLM_MODE"][0] == 'O')
      && (env["LLM_MODE"][1] == 's' || env["LLM_MODE"][1] == 'S')
      && (env["LLM_MODE"][2] == 's' || env["LLM_MODE"][2] == 'S')
  {
    if "LLM_MODE" in env {
      LowerIsOss(env["LLM_MODE"]);
    } else {
      assert ConfigFromEnv(env).mode == "api";
    }
  }

  // ---------------------------------------------------------------------
  // Foreign calls
  // ---------------------------------------------------------------------

  datatype ApiClient = ApiClient(handle: nat)
  datatype HfTokenizer = HfTokenizer(handle: nat)
  datatype HfModel = HfModel(handle: nat)

  /** What construction-time foreign calls do. An import is `None` when it
      succeeds and carries the exception text when it fails. */
  datatype Loaders = Loaders(
    importOpenai: Option<string>,                      // from openai import OpenAI
    newClient: string -> Result<ApiClient>,            // OpenAI(api_key=key)
    importTransformers: Option<string>,                // import torch; from transformers import ...
    loadTokenizer: string -> Result<HfTokenizer>,      // AutoTokenizer.from_pretrained(id, use_fast=True)
    loadModel: (string, string) -> Result<HfModel>)    // AutoModelForCausalLM.from_pretrained(id, ...), then .to(device)

  datatype Message = Message(role: string, content: string)
  datatype ChatRequest = ChatRequest(model: string, messages: seq<Message>)
  datatype Choice = Choice(message: Message)
  datatype ChatResponse = ChatResponse(choices: seq<Choice>)

  /** What per-request foreign calls do. */
  datatype Runtime = Runtime(
    chat: (ApiClient, ChatRequest) -> Result<ChatResponse>,   // client.chat.completions.create
    tokenize: (HfTokenizer, string) -> Result<seq<int>>,      // tok(prompt, return_tensors="pt")
    runModel: (HfModel, seq<int>) -> Result<seq<int>>,        // model.generate(...)[0]
    decode: (HfTokenizer, seq<int>) -> Result<string>)        // tok.decode(ids, skip_special_tokens=True)

  /** One call into a backend, as issued by `generate`. */
  datatype Call =
    | Chat(request: ChatRequest)
    | Tokenize(text: string)
    | RunModel(inputIds: seq<int>)
    | Decode(outputIds: seq<int>)
  {
    predicate IsLocal() { !Chat? }
  }

  /** The outcome of one `generate` together with the backend calls it made,
      in order. */
  datatype Generation = Generation(result: Result<string>, calls: seq<Call>)

  /** Every failure is re-raised as the one error kind, its message the
      given prefix followed by the original error's text. */
  function Wrap<T>(prefix: string, x: Result<T>): (r: Result<T>)
    ensures r.Ok? <==> x.Ok?
    ensures x.Ok? ==> r == x
    ensures x.Err? ==> StartsWith(r.message, prefix) && r.message[|prefix|..] == x.message
  {
    match x
    case Ok(_) => x
    case Err(e) =>
      assert (prefix + e)[..|prefix|] == prefix && (prefix + e)[|prefix|..] == e;
      Err(prefix + e)
  }

  function ErrorOf<T>(x: Result<T>): (r: Option<string>)
    ensures r.Some? <==> x.Err?
    ensures x.Err? ==> r.value == x.message
  {
    match x
    case Ok(_) => None
    case Err(e) => Some(e)
  }

  // ---------------------------------------------------------------------
  // Backend initialization (llm_provider.py:26-50)
  // ---------------------------------------------------------------------

  const ApiInitPrefix := "Failed to init OpenAI API client: "
  const MissingKey := "OPENAI_API_KEY is missing for API mode."

  function OssInitPrefix(modelId: string): string {
    "Failed to init OSS model '" + modelId + "': "
  }

  /** `_init_api`: the key check sits inside the `try`, so its own error is
      wrapped like every other one. */
  function InitApiOutcome(key: Option<string>, ld: Loaders): (r: Result<ApiClient>)
    ensures r.Err? ==> StartsWith(r.message, ApiInitPrefix)
    ensures ld.importOpenai.Some? ==> r == Err(ApiInitPrefix + ld.importOpenai.value)
    ensures ld.importOpenai.None? && (key == None || key == Some("")) ==>
      r == Err(ApiInitPrefix + MissingKey)
    ensures ld.importOpenai.None? && key.Some? && key.value != "" && ld.newClient(key.value).Err? ==>
      r == Err(ApiInitPrefix + ld.newClient(key.value).message)
    ensures r.Ok? <==> ld.importOpenai.None? && key.Some? && key.value != "" && ld.newClient(key.value).Ok?
    ensures r.Ok? ==> r == ld.newClient(key.value)
  {
    match ld.importOpenai
    case Some(e) => Wrap(ApiInitPrefix, Err(e))
    case None =>
      if key.None? || key.value == "" then Wrap(ApiInitPrefix, Err(MissingKey))
      else Wrap(ApiInitPrefix, ld.newClient(key.value))
  }

  /** `_init_oss`: the tokenizer is loaded before the model; the first
      failure is reported, prefixed with the model identifier. */
  function InitOssOutcome(c: Config, ld: Loaders): (r: Result<(HfTokenizer, HfModel)>)
    ensures r.Err? ==> StartsWith(r.message, OssInitPrefix(c.ossModelId))
    ensures ld.importTransformers.Some? ==>
      r == Err(OssInitPrefix(c.ossModelId) + ld.importTransformers.value)
    ensures ld.importTransformers.None? && ld.loadTokenizer(c.ossModelId).Err? ==>
      r == Err(OssInitPrefix(c.ossModelId) + ld.loadTokenizer(c.ossModelId).message)
    ensures ld.importTransformers.None? && ld.loadTokenizer(c.ossModelId).Ok?
            && ld.loadModel(c.ossModelId, c.ossDevice).Err? ==>
      r == Err(OssInitPrefix(c.ossModelId) + ld.loadModel(c.ossModelId, c.ossDevice).message)
    ensures r.Ok? <==> ld.importTransformers.None? && ld.loadTokenizer(c.ossModelId).Ok?
                       && ld.loadModel(c.ossModelId, c.ossDevice).Ok?
    ensures r.Ok? ==> r.value.0 == ld.loadTokenizer(c.ossModelId).value
                      && r.value.1 == ld.loadModel(c.ossModelId, c.ossDevice).value
  {
    var prefix := OssInitPrefix(c.ossModelId);
    match ld.importTransformers
    case Some(e) => Wrap(prefix, Err(e))
    case None =>
      match ld.loadTokenizer(c.ossModelId)
      case Err(e) => Wrap(prefix, Err(e))
      case Ok(tok) =>
        match ld.loadModel(c.ossModelId, c.ossDevice)
        case Err(e) => Wrap(prefix, Err(e))
        case Ok(model) => Ok((tok, model))
  }

  /** The initialized backend, as a tagged value. */
  datatype Backend =
    | ApiBackend(client: ApiClient)
    | OssBackend(tokenizer: HfTokenizer, model: HfModel)

  /** What constructing the provider yields: exactly the backend the mode
      selects, or the wrapped error of that backend's initialization. */
  function Construct(c: Config, ld: Loaders): (r: Result<Backend>)
    ensures r.Ok? ==> (r.value.OssBackend? <==> ModeOf(c.mode) == Oss)
    ensures r.Err? ==> StartsWith(r.message,
      if ModeOf(c.mode) == Oss then OssInitPrefix(c.ossModelId) else ApiInitPrefix)
    ensures ModeOf(c.mode) == Api && ld.importOpenai.None?
            && (c.openaiApiKey == None || c.openaiApiKey == Some("")) ==>
      r == Err(ApiInitPrefix + MissingKey)
    ensures ModeOf(c.mode) == Api ==> (r.Ok? <==> InitApiOutcome(c.openaiApiKey, ld).Ok?)
    ensures ModeOf(c.mode) == Oss ==> (r.Ok? <==> InitOssOutcome(c, ld).Ok?)
    ensures r.Ok? && ModeOf(c.mode) == Api ==> r.value == ApiBackend(InitApiOutcome(c.openaiApiKey, ld).value)
    ensures r.Ok? && ModeOf(c.mode) == Oss ==>
      r.value == OssBackend(InitOssOutcome(c, ld).value.0, InitOssOutcome(c, ld).value.1)
    ensures r.Err? ==> (r.message ==
      if ModeOf(c.mode) == Oss then InitOssOutcome(c, ld).message
      else InitApiOutcome(c.openaiApiKey, ld).message)
  {
    if c.mode == "oss" then
      match InitOssOutcome(c, ld)
      case Ok(tm) => Ok(OssBackend(tm.0, tm.1))
      case Err(e) => Err(e)
    else
      match InitApiOutcome(c.openaiApiKey, ld)
      case Ok(client) => Ok(ApiBackend(client))
      case Err(e) => Err(e)
  }

  // ---------------------------------------------------------------------
  // Generation (llm_provider.py:52-88)
  // ---------------------------------------------------------------------

  const ApiGenPrefix := "OpenAI API generation failed: "
  const OssGenPrefix := "OSS generation failed: "
  /** The text of the IndexError raised by `resp.choices[0]` on no choices. */
  const IndexErrorText := "list index out of range"

  /** `_gen_api`: one chat request holding one user message whose content is
      the prompt; the first choice's content is returned unchanged. */
  function GenApi(prompt: string, client: ApiClient, model: string, rt: Runtime): (g: Generation)
    ensures |g.calls| == 1 && g.calls[0].Chat?
    ensures g.calls[0].request == ChatRequest(model, [Message("user", prompt)])
    ensures g.result.Ok? <==>
      rt.chat(client, g.calls[0].request).Ok? && |rt.chat(client, g.calls[0].request).value.choices| > 0
    ensures g.result.Ok? ==>
      g.result.value == rt.chat(client, g.calls[0].request).value.choices[0].message.content
    ensures g.result.Err? ==> StartsWith(g.result.message, ApiGenPrefix)
    ensures rt.chat(client, g.calls[0].request).Err? ==>
      g.result == Err(ApiGenPrefix + rt.chat(client, g.calls[0].request).message)
    ensures rt.chat(client, g.calls[0].request).Ok? && |rt.chat(client, g.calls[0].request).value.choices| == 0 ==>
      g.result == Err(ApiGenPrefix + IndexErrorText)
  {
    var request := ChatRequest(model, [Message("user", prompt)]);
    var calls := [Chat(request)];
    match rt.chat(client, request)
    case Err(e) => Generation(Wrap(ApiGenPrefix, Err(e)), calls)
    case Ok(resp) =>
      if |resp.choices| == 0 then Generation(Wrap(ApiGenPrefix, Err(IndexErrorText)), calls)
      else Generation(Ok(resp.choices[0].message.content), calls)
  }

  /** The line-86 clean-up of the decoded text: an echoed prompt is cut off
      and the rest stripped; any other text is returned as it is. */
  function PostProcess(prompt: string, decoded: string): (r: string)
    ensures StartsWith(decoded, prompt) ==> IsStripOf(decoded[|prompt|..], r) && NoEdgeSpace(r)
    ensures !StartsWith(decoded, prompt) ==> r == decoded
  {
    if StartsWith(decoded, prompt) then
      StripIsStripOf(decoded[|prompt|..]);
      Strip(decoded[|prompt|..])
    else decoded
  }

  /** The error, if any, of running one local-backend call. */
  function OssFailure(rt: Runtime, tok: HfTokenizer, model: HfModel, c: Call): Option<string> {
    match c
    case Tokenize(p) => ErrorOf(rt.tokenize(tok, p))
    case RunModel(ids) => ErrorOf(rt.runModel(model, ids))
    case Decode(ids) => ErrorOf(rt.decode(tok, ids))
    case Chat(_) => None
  }

  /** `_gen_oss`: tokenize, run the model, decode, clean up. The first
      failing call ends generation and its error is wrapped. */
  function GenOss(prompt: string, tok: HfTokenizer, model: HfModel, rt: Runtime): (g: Generation)
    ensures 1 <= |g.calls| <= 3 && g.calls[0] == Tokenize(prompt)
    ensures |g.calls| >= 2 ==>
      rt.tokenize(tok, prompt).Ok? && g.calls[1] == RunModel(rt.tokenize(tok, prompt).value)
    ensures |g.calls| == 3 ==> (g.calls[1].RunModel? && rt.runModel(model, g.calls[1].inputIds).Ok?
      && g.calls[2] == Decode(rt.runModel(model, g.calls[1].inputIds).value))
    ensures g.result.Err? <==> OssFailure(rt, tok, model, g.calls[|g.calls| - 1]).Some?
    ensures g.result.Err? ==>
      g.result == Err(OssGenPrefix + OssFailure(rt, tok, model, g.calls[|g.calls| - 1]).value)
    ensures g.result.Ok? ==> (|g.calls| == 3 && g.calls[2].Decode? && rt.decode(tok, g.calls[2].outputIds).Ok?
      && g.result.value == PostProcess(prompt, rt.decode(tok, g.calls[2].outputIds).value))
  {
    var t := Tokenize(prompt);
    match rt.tokenize(tok, prompt)
    case Err(e) => Generation(Err(OssGenPrefix + e), [t])
    case Ok(ids) =>
      match rt.runModel(model, ids)
      case Err(e) => Generation(Err(OssGenPrefix + e), [t, RunModel(ids)])
      case Ok(out) =>
        match rt.decode(tok, out)
        case Err(e) => Generation(Err(OssGenPrefix + e), [t, RunModel(ids), Decode(out)])
        case Ok(text) => Generation(Ok(PostProcess(prompt, text)), [t, RunModel(ids), Decode(out)])
  }

  /** The local path never talks to the chat API. */
  lemma GenOssLocal(prompt: string, tok: HfTokenizer, model: HfModel, rt: Runtime)
    ensures var g := GenOss(prompt, tok, model, rt);
      forall i :: 0 <= i < |g.calls| ==> g.calls[i].IsLocal()
  {
    var g := GenOss(prompt, tok, model, rt);
    assert g.calls[0].Tokenize?;
    assert |g.calls| >= 2 ==> g.calls[1].RunModel?;
    assert |g.calls| == 3 ==> g.calls[2].Decode?;
  }

  /** An echoed prompt is removed and what follows is stripped. */
  lemma PostProcessEcho(prompt: string, rest: string)
    ensures PostProcess(prompt, prompt + rest) == Strip(rest)
  {
    var d := prompt + rest;
    assert d[..|prompt|] == prompt && d[|prompt|..] == rest;
    StripUnique(rest, PostProcess(prompt, d));
  }

  /** Text that does not echo the prompt is returned as it is: when it has
      whitespace at an edge, that whitespace survives, so the result is not
      what stripping would give. */
  lemma PostProcessKeepsWhitespace(prompt: string, decoded: string)
    requires !StartsWith(decoded, prompt) && !NoEdgeSpace(decoded)
    ensures PostProcess(prompt, decoded) == decoded
    ensures PostProcess(prompt, decoded) != Strip(decoded)
  {
    var i := Lead(decoded);
    assert StripAt(decoded, i, i + |Strip(decoded)|);
  }

  /** For example, an answer " A " to the prompt "Q" keeps both spaces. */
  lemma PostProcessUntrimmedExample()
    ensures PostProcess("Q", " A ") == " A "
    ensures PostProcess("Q", " A ") != Strip(" A ")
  {
    var d := " A ";
    assert !StartsWith(d, "Q") by { assert d[..1] == " "; }
    assert !NoEdgeSpace(d) by { assert IsSpace(d[0]); }
    PostProcessKeepsWhitespace("Q", d);
  }

  /** With an empty prompt every decoded text counts as an echo and is stripped. */
  lemma PostProcessEmptyPrompt(decoded: string)
    ensures PostProcess("", decoded) == Strip(decoded)
  {
    PostProcessEcho("", decoded);
    assert "" + decoded == decoded;
  }

  // ---------------------------------------------------------------------
  // The provider object (llm_provider.py:15-24, 52-56)
  // ---------------------------------------------------------------------

  class LLM {
    /** The module-level settings, fixed when the module is imported. */
    const config: Config
    var mode: string
    var apiClient: Option<ApiClient>
    var hfModel: Option<HfModel>
    var hfTokenizer: Option<HfTokenizer>

    /** Exactly the backend that the mode selects is initialized. */
    ghost predicate Ready()
      reads this
    {
      mode == config.mode &&
      if mode == "oss" then apiClient.None? && hfTokenizer.Some? && hfModel.Some?
      else apiClient.Some? && hfTokenizer.None? && hfModel.None?
    }

    /** The first four assignments of `__init__`. */
    constructor (config: Config)
      ensures this.config == config && mode == config.mode
      ensures apiClient.None? && hfModel.None? && hfTokenizer.None?
    {
      this.config := config;
      mode := config.mode;
      apiClient := None;
      hfModel := None;
      hfTokenizer := None;
    }

    /** `_init_api`: the client is stored only when every step succeeds. */
    method InitApi(ld: Loaders) returns (out: Result<()>)
      modifies this
      ensures out.Ok? <==> InitApiOutcome(config.openaiApiKey, ld).Ok?
      ensures out.Err? ==> out.message == InitApiOutcome(config.openaiApiKey, ld).message
      ensures apiClient == if out.Ok? then Some(InitApiOutcome(config.openaiApiKey, ld).value)
                           else old(apiClient)
      ensures mode == old(mode) && hfModel == old(hfModel) && hfTokenizer == old(hfTokenizer)
    {
      if ld.importOpenai.Some? {
        return Err(ApiInitPrefix + ld.importOpenai.value);
      }
      var key := config.openaiApiKey;
      if key.None? || key.value == "" {
        return Err(ApiInitPrefix + MissingKey);
      }
      var client := ld.newClient(key.value);
      if client.Err? {
        return Err(ApiInitPrefix + client.message);
      }
      apiClient := Some(client.value);
      return Ok(());
    }

    /** `_init_oss`: the tokenizer is stored as soon as it is loaded, the
        model only once it is loaded too. */
    method InitOss(ld: Loaders) returns (out: Result<()>)
      modifies this
      ensures out.Ok? <==> InitOssOutcome(config, ld).Ok?
      ensures out.Err? ==> out.message == InitOssOutcome(config, ld).message
      ensures hfTokenizer ==
        if ld.importTransformers.None? && ld.loadTokenizer(config.ossModelId).Ok?
        then Some(ld.loadTokenizer(config.ossModelId).value) else old(hfTokenizer)
      ensures hfModel == if out.Ok? then Some(InitOssOutcome(config, ld).value.1) else old(hfModel)
      ensures mode == old(mode) && apiClient == old(apiClient)
    {
      var prefix := OssInitPrefix(config.ossModelId);
      if ld.importTransformers.Some? {
        return Err(prefix + ld.importTransformers.value);
      }
      var tok := ld.loadTokenizer(config.ossModelId);
      if tok.Err? {
        return Err(prefix + tok.message);
      }
      hfTokenizer := Some(tok.value);
      var model := ld.loadModel(config.ossModelId, config.ossDevice);
      if model.Err? {
        return Err(prefix + model.message);
      }
      hfModel := Some(model.value);
      return Ok(());
    }

    /** The initialized backend as a tagged value. */
    function Installed(): (b: Backend)
      reads this
      requires Ready()
      ensures b.OssBackend? <==> ModeOf(mode) == Oss
    {
      if mode == "oss" then OssBackend(hfTokenizer.value, hfModel.value)
      else ApiBackend(apiClient.value)
    }

    /** `generate`: every call goes to the local model exactly when the mode
        is "oss", and a failure names the path that failed. */
    function Generate(prompt: string, rt: Runtime): (g: Generation)
      reads this
      requires Ready()
      ensures |g.calls| >= 1
      ensures ModeOf(mode) == Oss <==> (forall i :: 0 <= i < |g.calls| ==> g.calls[i].IsLocal())
      ensures ModeOf(mode) == Api ==> g.calls == [Chat(ChatRequest(config.openaiModel, [Message("user", prompt)]))]
      ensures ModeOf(mode) == Oss ==> g.calls[0] == Tokenize(prompt)
      ensures g.result.Err? ==>
        StartsWith(g.result.message, if ModeOf(mode) == Oss then OssGenPrefix else ApiGenPrefix)
      ensures ModeOf(mode) == Oss ==> g == GenOss(prompt, hfTokenizer.value, hfModel.value, rt)
      ensures ModeOf(mode) == Api ==> g == GenApi(prompt, apiClient.value, config.openaiModel, rt)
    {
      if mode == "oss" then
        GenOssLocal(prompt, hfTokenizer.value, hfModel.value, rt);
        GenOss(prompt, hfTokenizer.value, hfModel.value, rt)
      else GenApi(prompt, apiClient.value, config.openaiModel, rt)
    }
  }

  /** `LLM()`: construction either yields a provider whose one initialized
      backend is the one `Construct` describes, or fails with its error. */
  method Create(config: Config, ld: Loaders) returns (r: Result<LLM>)
    ensures r.Ok? <==> Construct(config, ld).Ok?
    ensures r.Err? ==> r.message == Construct(config, ld).message
    ensures r.Ok? ==> fresh(r.value) && r.value.Ready() && r.value.config == config
    ensures r.Ok? ==> r.value.Installed() == Construct(config, ld).value
  {
    var llm := new LLM(config);
    var out: Result<()>;
    if llm.mode == "oss" {
      out := llm.InitOss(ld);
    } else {
      out := llm.InitApi(ld);
    }
    if out.Err? {
      return Err(out.message);
    }
    return Ok(llm);
  }
}
