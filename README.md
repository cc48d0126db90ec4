# MedAIClerk backend: a Dafny model

MedAIClerk's backend exposes two HTTP endpoints. One turns a clinician's
free-text notes into a SOAP note (Subjective, Objective, Assessment, Plan).
The other suggests ICD-10 codes with justifications. Both forward a rendered
prompt to one `generate(prompt)` operation of a provider object. The provider
picks its backend once, at construction: the hosted OpenAI chat API, or a
locally loaded `transformers` causal model ("oss" mode).

The model has five modules:

- `Results` (results.dfy): `Option` and `Result`. `Err` carries the message
  of the one error kind, Python's `RuntimeError`.
- `Text` (text.dfy): the Python string operations the code relies on. These
  are `str.isspace` (the full Unicode whitespace set), `str.strip()` (with a
  declarative specification and a proof that `Strip` is the only string that
  meets it), `startswith`, `endswith`, `in`, and ASCII `lower()`.
- `Environment` (environment.dfy): `os.getenv` with and without a default,
  and `load_dotenv()` without override.
- `Provider` (provider.dfy): llm_provider.py. It holds the module-level
  settings and an `LLM` class. The class has the four fields `__init__`
  assigns, an invariant `Ready()` ("exactly the backend the mode selects is
  initialized"), and the methods `InitApi`/`InitOss`. Beside the class are
  the pure specifications `InitApiOutcome`, `InitOssOutcome` and `Construct`,
  the two generation paths `GenApi`/`GenOss`, and the line-86 clean-up
  `PostProcess`.
- `Handlers` (handlers.dfy): main.py. It holds the two prompt templates
  exactly as the triple-quoted f-strings render them, and the two handlers
  as functions. The generator is a parameter. Also here: `/health`, and the
  order in which start-up reads the configuration.

Foreign calls are parameters: the `openai` client, the tokenizer,
`model.generate`, `decode`, and the imports that can fail. `Loaders` holds
the construction-time calls; `Runtime` holds the per-request calls. Each
generation returns the backend calls it made, in order (`Generation.calls`).
Each handler returns the prompts it passed to the generator
(`Reply.prompts`). So "no generation call on a 400" is stated as
`prompts == []`, and "the API path sends one user message" is stated about
the recorded request.

When the decoded local-model text does not start with the prompt, it is
returned verbatim, surrounding whitespace included: only an echoed prompt
leads to stripping (llm_provider.py:86; `PostProcessKeepsWhitespace`).

A Dafny `string` is a sequence of Unicode scalar values, so `len` and `|s|`
agree on every text without surrogate code points (see "Left out").

## Model

| member | source | states |
|---|---|---|
| `Text.IsSpace` | MedAIClerk-Backend/main.py:36 | definition of `str.isspace` on one code point (ASCII controls 9-13 and 28-32, U+0085, U+00A0, the Unicode space separators, U+2028/2029); `Strip` and its lemmas rest on it |
| `Text.Strip` | MedAIClerk-Backend/main.py:36 | `str.strip()`: the result is a contiguous slice of the input; everything cut from the front and the back is whitespace; the result has no whitespace at either end |
| `Text.StripIsStripOf` | MedAIClerk-Backend/main.py:36 | `Strip` meets the declarative description of stripping (`IsStripOf`) |
| `Text.StripAtIsStrip` | MedAIClerk-Backend/main.py:36 | every cut meeting the description (whitespace-only ends, no edge whitespace left) yields exactly `Strip(s)` |
| `Text.StripUnique` | MedAIClerk-Backend/main.py:36 | any string meeting that description equals `Strip(s)`, so the description fixes the result |
| `Text.StripAtUnique` | MedAIClerk-Backend/main.py:36 | corollary of `StripAtIsStrip`: two ways of cutting whitespace-only ends down to a string with no edge whitespace give the same slice |
| `Text.StripFrame` | MedAIClerk-Backend/main.py:46 | whitespace around a string with no edge whitespace is exactly what `strip()` removes |
| `Text.StripIdempotent` | MedAIClerk-Backend/main.py:36 | stripping a stripped text changes nothing |
| `Text.StripEmpty` | MedAIClerk-Backend/main.py:56-57 | a text strips to the empty string iff it is all whitespace |
| `Text.TrimStart` | MedAIClerk-Backend/main.py:36 | the result is a suffix of the input, the cut prefix is whitespace, and the result does not start with whitespace |
| `Text.Lead` | MedAIClerk-Backend/main.py:36 | the number of leading whitespace characters: all of them are whitespace and the next one is not |
| `Text.Tail` | MedAIClerk-Backend/main.py:36 | where the trailing whitespace begins: everything from there on is whitespace and the character before is not |
| `Text.TrimEnd` | MedAIClerk-Backend/main.py:36 | the result is a prefix of the input, the cut suffix is whitespace, and the result does not end with whitespace |
| `Text.LowerChar` | MedAIClerk-Backend/llm_provider.py:5 | ASCII capitals move to lower case by 32 code points; every other character is unchanged |
| `Text.Lower` | MedAIClerk-Backend/llm_provider.py:5 | same length as the input; each character is lower-cased on its own |
| `Text.LowerCharIs` | MedAIClerk-Backend/llm_provider.py:5 | exactly a small letter and its capital lower-case to that small letter |
| `Text.LowerIsOss` | MedAIClerk-Backend/llm_provider.py:5 | the lower-cased mode is "oss" exactly for the eight letter-case spellings of "oss" |
| `Text.StartsWith` | MedAIClerk-Backend/llm_provider.py:86 | definition of `str.startswith`; its use is fixed by `PostProcess`'s contract |
| `Text.EndsWith` | MedAIClerk-Backend/main.py:39-46 | definition of `str.endswith`; used by `SoapPromptContents` |
| `Text.Contains` | MedAIClerk-Backend/main.py:59-70 | definition of `in` on strings (an occurrence at some offset); meaning fixed by `ContainsMiddle`, `OccursAppend`, `OccursPrepend` |
| `Text.ContainsMiddle` | MedAIClerk-Backend/main.py:64 | text placed into a template occurs in the result |
| `Text.OccursAppend` | MedAIClerk-Backend/main.py:39-46 | an occurrence keeps its position when text is appended |
| `Text.OccursPrepend` | MedAIClerk-Backend/main.py:59-70 | an occurrence moves by the length of text prepended |
| `Environment.Lookup` | MedAIClerk-Backend/llm_provider.py:29 | `os.getenv(key)` is `None` exactly when the variable is unset, and the value otherwise |
| `Environment.GetEnv` | MedAIClerk-Backend/llm_provider.py:5 | `os.getenv(key, default)`: the default only for an unset variable, never for an empty one |
| `Environment.LoadDotenv` | MedAIClerk-Backend/main.py:9 | the merged environment has the union of the keys; process values win; `.env` values fill the gaps |
| `Provider.ConfigFromEnv` | MedAIClerk-Backend/llm_provider.py:5-11 | mode = lower-cased `LLM_MODE`, defaulting to "api"; `OSS_MODEL_ID`, `OSS_DEVICE` and `OPENAI_MODEL` are the set value or the defaults "openai/gpt-oss-20b", "cpu" and "gpt-4o-mini"; the API key is `getenv("OPENAI_API_KEY")` |
| `Provider.ModeOf` | MedAIClerk-Backend/llm_provider.py:21-24 | the local backend iff the mode is exactly "oss"; every other string, unknown ones included, selects the API |
| `Provider.ModeFromEnv` | MedAIClerk-Backend/llm_provider.py:5-24 | the local backend is selected iff `LLM_MODE` is set and spells "oss" in any case; unset selects the API |
| `Provider.Wrap` | MedAIClerk-Backend/llm_provider.py:66-67 | a failure is re-raised as the one error kind; its message is the prefix followed by the original text; success passes through |
| `Provider.ErrorOf` | MedAIClerk-Backend/llm_provider.py:87-88 | the error text of a failed step, and none for a successful one |
| `Provider.InitApiOutcome` | MedAIClerk-Backend/llm_provider.py:26-34 | every error is "Failed to init OpenAI API client: " + cause: the import error, "OPENAI_API_KEY is missing for API mode." for a missing or empty key, or the client error; success iff the import works, the key is non-empty and the client is created |
| `Provider.InitOssOutcome` | MedAIClerk-Backend/llm_provider.py:36-50 | the first failing step of import, tokenizer load and model load gives "Failed to init OSS model '<id>': " + its error; success iff all three work, yielding both handles |
| `Provider.Construct` | MedAIClerk-Backend/llm_provider.py:16-24 | success initializes exactly the backend the mode selects, holding the client (or tokenizer and model) its initialization returned; an error is exactly the error of the dispatched initialization (so its prefix names that path); in API mode a missing key gives the fixed message |
| `Provider.LLM.Ready` | MedAIClerk-Backend/llm_provider.py:17-24 | definition of the object invariant: the mode is the configured one and exactly the backend it selects is initialized; established by `Create` |
| `Provider.LLM.constructor` | MedAIClerk-Backend/llm_provider.py:16-20 | mode taken from the configuration; all three backend handles empty |
| `Provider.LLM.InitApi` | MedAIClerk-Backend/llm_provider.py:26-34 | reports `InitApiOutcome`; stores the client only on success; touches no other field |
| `Provider.LLM.InitOss` | MedAIClerk-Backend/llm_provider.py:36-50 | reports `InitOssOutcome`; stores the tokenizer once it loads, the model only once it loads too; the API client is untouched |
| `Provider.LLM.Installed` | MedAIClerk-Backend/llm_provider.py:17-24 | the initialized backend is the local one iff the mode is "oss" |
| `Provider.Create` | MedAIClerk-Backend/llm_provider.py:15-24 | `LLM()` fails iff `Construct` fails, with its message; otherwise a fresh provider that is `Ready()`, holding exactly the backend `Construct` describes |
| `Provider.LLM.Generate` | MedAIClerk-Backend/llm_provider.py:52-56 | in "oss" mode the result and calls are exactly those of `GenOss` on the stored tokenizer and model, otherwise those of `GenApi` on the stored client and configured model; every backend call is local iff the mode is "oss"; a failure carries the prefix of the path taken |
| `Provider.GenApi` | MedAIClerk-Backend/llm_provider.py:58-67 | one request with the configured model and exactly one message (`role` "user", `content` the prompt); success iff the call works and has a choice; the first choice's content is returned unchanged; a failed call gives "OpenAI API generation failed: " + its error, no choices gives that prefix + "list index out of range" |
| `Provider.GenOss` | MedAIClerk-Backend/llm_provider.py:69-88 | calls are tokenize(prompt), run the model on its ids, decode its output; it stops at the first failing call and reports "OSS generation failed: " + that call's error; earlier calls succeeded; success is `PostProcess` of the decoded text |
| `Provider.GenOssLocal` | MedAIClerk-Backend/llm_provider.py:69-88 | every call the local path makes is a local-model call (tokenize, run, decode), never a chat request |
| `Provider.PostProcess` | MedAIClerk-Backend/llm_provider.py:86 | decoded text starting with the prompt gives the strip of the rest (no edge whitespace); any other text is returned verbatim |
| `Provider.PostProcessEcho` | MedAIClerk-Backend/llm_provider.py:86 | for decoded text `prompt + rest` the result is `Strip(rest)` |
| `Provider.PostProcessKeepsWhitespace` | MedAIClerk-Backend/llm_provider.py:86 | for every prompt and every decoded text that does not start with it and has whitespace at an edge, the result is the text itself, which differs from its strip |
| `Provider.PostProcessUntrimmedExample` | MedAIClerk-Backend/llm_provider.py:86 | example: prompt "Q", decoded " A " gives " A " unchanged, not its strip |
| `Provider.PostProcessEmptyPrompt` | MedAIClerk-Backend/llm_provider.py:86 | with an empty prompt every decoded text counts as an echo and is stripped |
| `Handlers.IndentIsSpace` | MedAIClerk-Backend/main.py:39-46 | the template's line break plus indentation is whitespace |
| `Handlers.IndentFrame` | MedAIClerk-Backend/main.py:46 | `.strip()` on a template removes exactly its leading and trailing indentation |
| `Handlers.SoapBodyEdges` | MedAIClerk-Backend/main.py:39-46 | the SOAP template body around trimmed non-empty notes has no edge whitespace |
| `Handlers.IcdBodyEdges` | MedAIClerk-Backend/main.py:59-70 | the ICD template body has no edge whitespace, whatever the text |
| `Handlers.SoapTemplate` | MedAIClerk-Backend/main.py:39-46 | definition of the SOAP f-string before `.strip()`; meaning fixed by `SoapPromptShape` |
| `Handlers.SoapPrompt` | MedAIClerk-Backend/main.py:39-46 | definition of the stripped SOAP prompt; meaning fixed by `SoapPromptShape` and `SoapPromptContents` |
| `Handlers.IcdTemplate` | MedAIClerk-Backend/main.py:59-70 | definition of the ICD f-string before `.strip()`; meaning fixed by `IcdPromptShape` |
| `Handlers.IcdPrompt` | MedAIClerk-Backend/main.py:59-70 | definition of the stripped ICD prompt; meaning fixed by `IcdPromptShape` and `IcdPromptContents` |
| `Handlers.SoapPromptShape` | MedAIClerk-Backend/main.py:39-46 | for trimmed non-empty notes the prompt is the fixed intro followed by exactly the notes |
| `Handlers.SoapSections` | MedAIClerk-Backend/main.py:39-46 | intro + notes names the four sections and ends with the notes |
| `Handlers.HeadingsNamed` | MedAIClerk-Backend/main.py:42 | the heading line lists Subjective, Objective, Assessment and Plan |
| `Handlers.HeadingIn` | MedAIClerk-Backend/main.py:42 | a heading of that line occurs in the intro + notes |
| `Handlers.SoapPromptContents` | MedAIClerk-Backend/main.py:39-46 | the SOAP prompt contains the four headings and ends exactly with the notes |
| `Handlers.IcdPromptShape` | MedAIClerk-Backend/main.py:59-70 | for every text the ICD prompt is intro + text + the fixed format block |
| `Handlers.IcdLines` | MedAIClerk-Backend/main.py:63-69 | intro + text + format block contains the text and both format lines |
| `Handlers.IcdPromptContents` | MedAIClerk-Backend/main.py:59-70 | the ICD prompt contains the text, `Code: <ICD-10 Code> - <Description>` and `Justification: <reason>` |
| `Handlers.Respond` | MedAIClerk-Backend/main.py:47-52 | exactly one generator call with the prompt; success gives the generator's text under the field; failure gives a 500 with detail "LLM error: " + message |
| `Handlers.GenerateSoapNote` | MedAIClerk-Backend/main.py:34-52 | trimmed notes shorter than 10: a 400 with the fixed detail and no generator call; otherwise exactly one call with the SOAP prompt of the trimmed notes, and a working generator gives `{soap_note: <its text>}` while a failing one gives a 500 with detail "LLM error: " + its message; a 400 never follows a call |
| `Handlers.Truthy` | MedAIClerk-Backend/main.py:56 | definition of Python truthiness for an optional string: `None` and "" are false; used by `IcdInput` |
| `Handlers.IcdInput` | MedAIClerk-Backend/main.py:56 | `soap_note or notes or ""`: the soap note when non-empty, else the notes when non-empty, else "" |
| `Handlers.SuggestIcdCodes` | MedAIClerk-Backend/main.py:54-76 | the same validation on the selected text (400 with its own detail, no call), then one call with the ICD prompt; success gives `{icd_codes: <its text>}`, failure the 500 with "LLM error: " + message |
| `Handlers.SoapNotePrompt` | MedAIClerk-Backend/main.py:36-46 | a valid SOAP request sends one prompt; it ends with the trimmed notes and names all four sections |
| `Handlers.IcdCodesPrompt` | MedAIClerk-Backend/main.py:56-70 | a valid ICD request sends one prompt; it holds the trimmed text and both format lines |
| `Handlers.IcdPrefersSoapNote` | MedAIClerk-Backend/main.py:56 | a non-empty soap note builds the prompt even when notes are present |
| `Handlers.BlankSoapNoteShadowsNotes` | MedAIClerk-Backend/main.py:56-58 | a non-empty whitespace-only soap note gives a 400 and no generator call, whatever the notes |
| `Handlers.Health` | MedAIClerk-Backend/main.py:30-32 | status "ok"; mode is the raw `LLM_MODE`, "api" when unset, not lower-cased |
| `Handlers.HealthModeNotLowered` | MedAIClerk-Backend/main.py:30-32 | with `LLM_MODE=OSS` health reports "OSS" while the provider selects the local backend |
| `Handlers.StartupConfigAsWritten` | MedAIClerk-Backend/main.py:7-9 | as the code runs: mode, model identifiers, device and chat model come from the process environment alone; only the API key sees `.env` |
| `Handlers.DotenvModeIgnoredAsWritten` | MedAIClerk-Backend/main.py:7-9 | `LLM_MODE=oss` given only in `.env`: health says "oss" but the provider takes the API path |
| `Handlers.StartupConfig` | MedAIClerk-Backend/main.py:7-21 | corrected: every setting (mode, model identifiers, device, chat model, key) read from the environment merged by `load_dotenv()`; its mode is the lower-cased mode health reports |
| `Handlers.HealthMatchesProvider` | MedAIClerk-Backend/main.py:30-32 | corrected: the provider runs locally iff health's mode spells "oss" in any case; a `.env` mode applies unless the process sets one |
| `Handlers.Startup` | MedAIClerk-Backend/main.py:21 | `llm = LLM()` succeeds iff `Construct` does on the corrected configuration; a failure carries `Construct`'s message; success gives a fresh `Ready()` provider holding exactly `Construct`'s backend |
| `Handlers.SoapNoteExample` | MedAIClerk-Backend/main.py:34-49 | "Patient reports headache for 3 days." with a generator answering "Subjective: ..." gives `{soap_note: "Subjective: ..."}` |
| `Handlers.ShortNotesExample` | MedAIClerk-Backend/main.py:36-38 | "hi" gives a 400 with the 10-character detail and no generator call |

## Findings

| source | as written | input that shows it | evidently intended | confidence | as-written member | corrected member |
|---|---|---|---|---|---|---|
| MedAIClerk-Backend/main.py:7-9 | `from llm_provider import LLM` runs before `load_dotenv()`. So `LLM_MODE`, `OSS_MODEL_ID`, `OSS_DEVICE` and `OPENAI_MODEL` are read from the process environment only. `OPENAI_API_KEY` and `/health` do see `.env` | process environment without `LLM_MODE`, `.env` with `LLM_MODE=oss`: `/health` reports "oss", the provider uses the API | provider settings read after `load_dotenv()`, so the provider runs the mode `/health` reports | high (import order is deterministic); not executed | `Handlers.DotenvModeIgnoredAsWritten` | `Handlers.HealthMatchesProvider` |

`Handlers.Startup` constructs the provider from the corrected `StartupConfig`.

## Left out

- The frontend (`medai-clerk-frontend/`): UI only, with no logic.
- FastAPI routing and pydantic marshalling: the 422 for a missing `notes` field, and JSON encoding. Handlers take the already-parsed fields.
- The CORS middleware (main.py:11-19), and the uvicorn start-up with port parsing (main.py:78-81): framework plumbing.
- Reading the `.env` file and `os.environ`: both are maps given as parameters.
- The sampling temperature, the token limit and the quantization hint: these are pass-through values, and a float has no place in the model. The same holds for dtype, `device_map` and moving tensors to CUDA. The device string only reaches the model-loading oracle.
- Parsing `OSS_MAX_NEW_TOKENS` and `OSS_TEMPERATURE` with `int()`/`float()` at import. A malformed value aborts the import; this is not modelled.
- The `import torch` inside `_gen_oss`: once construction succeeded it is already imported, so it always succeeds.
- The tokenizer's tensor dictionary and the batch of output sequences: these are abstracted to one id sequence each (`output_ids[0]` is what `runModel` returns).
- `print`/logging side effects, and concurrent request handling.
- `(patient_notes.notes or "")`: `notes` is a required `str`, so `or ""` only maps "" to "". The model takes the string.
- Text.Lower and Text.LowerChar: only ASCII letters are lower-cased, not Python's full Unicode `lower()`. For the comparison with "oss" this is exact, since no other character lower-cases to 'o' or 's'. The stored mode string can differ for non-ASCII capitals.
- Provider.GenApi: a choice whose `message.content` is null (the API allows this) is not modelled; content is always a string.
- Provider.LLM.Generate: code outside the class could reassign `mode`. The model assumes it is only set by `__init__`, as the repository does.
- Provider.LLM.InitOss: `from_pretrained` and `.to(device)` are one `loadModel` call. The source stores the model before `.to` runs, so a failing `.to` leaves `_hf_model` set there but empty here. Nobody can observe this, because `__init__` then raises.
- Text: a Dafny `char` excludes the surrogate code points U+D800-U+DFFF, which a Python `str` can hold. Texts containing lone surrogates are not modelled.
- A failed construction: Python raises from `__init__` and no object exists. `Create` returns `Err` instead of an object in a "failed" state.
