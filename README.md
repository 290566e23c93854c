# Call handler of the SIP-call voice API, modelled in Dafny

The repository exposes one HTTP endpoint, `POST /sip/call`, that receives a simulated
telephone call (caller, callee, URL of an audio recording). It checks the request, has the
audio transcribed by a speech-to-text vendor, has a reply written by a chat-completion
vendor, has the reply turned into speech by a text-to-speech library, picks a canned
routing message for the dialled number, and answers with JSON. Everything in `app.py`
that does not need the vendors is modelled here:

- `text.dfy` (module `Text`): Python's `str.isspace`, `str.startswith` and `str.strip()`,
  which the reply generator applies to the vendor's answer.
- `router.dfy` (module `Router`): `route_call`, a total map from the callee to one of
  three fixed messages.
- `validation.dfy` (module `Validation`): the two input checks at the top of
  `handle_call`, including Python's `all()` over the fields and `startswith` with a tuple.
- `stages.dfy` (module `Stages`): the three vendor stages. Each vendor is a value of the
  `Vendors` datatype that gives, for every input, a value or the text of the exception
  it raises. The download and the transcription vendor can each raise at two points, and
  the model keeps the two apart. Each stage is also a function that returns the stage's outcome,
  the calls it made (with their arguments) and what it did to the temporary audio file.
- `pipeline.dfy` (module `Pipeline`): `handle_call` as a function of the request and the
  vendors. It gives the `(status, body)` response, the ordered trace of calls and the
  temporary-file effect. The lemmas beside it state the validation, ordering,
  short-circuit, error-mapping and success properties.
- `server.dfy` (module `Server`): the same handler written as imperative code in the
  class `CallServer`. Its fields are the temporary files on disk (a map from path to
  bytes), the counter that makes temporary names unique, and a ghost trace of calls. Its
  methods follow the Python functions step by step. Each method is proved against the
  functions of `Stages` and `Pipeline`: same result, same appended calls, and the
  temporary files changed exactly as the function's effect says.

Behaviour of `app.py` worth noting, all modelled as the code has it:

- An unknown callee is not an error. It gets the fallback message "Desculpe, não
  reconhecemos o número discado." with status 200 (app.py:96-97).
- Routing runs last, after speech synthesis (app.py:127).
- The response body carries status, transcription, response, audio_file and
  routing_response, and nothing else (app.py:130-136).
- The synthesized file is always `output.mp3`, the default argument, shared by every
  request (app.py:75, 124).
- The temporary audio file is created before the body is read, and it is removed only
  after the transcription vendor returns (app.py:31-41). It stays on disk when reading
  the body fails (empty) or when the vendor call raises (with the audio). When the vendor
  returns an object whose text cannot be read, the file is already gone before the error
  (app.py:41-44).

## Model

| member | source | states |
|---|---|---|
| `Router.RouteCall` | app.py:91-97 | The result is the support message exactly when the callee is "suporte" and the sales message exactly when it is "vendas"; every other callee gets the "não reconhecemos o número discado" fallback; the function is total and never fails |
| `Router.RouteCallIgnoresCaller` | app.py:91-97 | The routing message does not depend on the caller |
| `Router.RouteCallRange` | app.py:91-97 | The router answers with one of exactly three messages |
| `Validation.Truthy` | app.py:109 | The falsy test of `all()` on one field: a field counts when it is present and not the empty string. Its meaning for the handler is carried by `Validation.All` and `Validation.Validate` |
| `Validation.All` | app.py:109 | Python's `all()` over the fields is true exactly when every field is present and non-empty |
| `Validation.StartsWithAny` | app.py:111 | `startswith` with a tuple is true exactly when the string starts with one of the prefixes |
| `Validation.Validate` | app.py:104-112 | A request with any of caller, callee, audio_url missing or empty is rejected with the "são obrigatórios" message. Otherwise, a URL that starts with neither `http://` nor `https://` is rejected with the "deve ser um URL válido" message. The presence check takes precedence. A request that passes both checks is accepted with the three field values |
| `Text.IsWhitespace` | app.py:67 | Python's `str.isspace` on one character: the ASCII tab, line feed, vertical tab, form feed, carriage return, the four separators 0x1c-0x1f and space, plus the Unicode white-space characters (0x85, 0xa0, 0x1680, 0x2000-0x200a, 0x2028, 0x2029, 0x202f, 0x205f, 0x3000). What `strip()` removes with it is stated by `Text.StripBounds` and `Text.StripUnique` |
| `Text.SkipWhitespace` | app.py:67 | The first index at or after `i` that is not whitespace, with only whitespace skipped |
| `Text.SkipWhitespaceBack` | app.py:67 | The end of a range once its trailing whitespace is cut, with only whitespace cut |
| `Text.Strip` | app.py:67 | The stripped reply starts and ends with a non-whitespace character (or is empty) and is no longer than the input |
| `Text.StripBounds` | app.py:67 | What `strip()` keeps is the part of the input between its leading and its trailing whitespace |
| `Text.StripUnique` | app.py:67 | Any cut of whitespace from both ends that leaves no whitespace at either end is what `strip()` returns (the converse of `StripBounds`) |
| `Text.StripIdempotent` | app.py:67 | Stripping the reply again changes nothing |
| `Text.StripIgnoresPadding` | app.py:67 | Whitespace the vendor adds around its content does not change the reply |
| `Stages.GenerateStep` | app.py:54-72 | The generator sends one chat request built from the prompt (model gpt-3.5-turbo, the fixed system instruction, at most 150 tokens). It fails with the vendor's error exactly when the vendor fails. On success the reply is the vendor's content passed through `strip()`, so it has no surrounding whitespace |
| `Stages.SynthesizeStep` | app.py:75-88 | The synthesizer makes one call with the text, language "pt" and the output file. It fails with the library's error exactly when the library fails. On success it returns the output file name |
| `Stages.TranscribeStep` | app.py:25-51 | `_transcribe_audio_openai` as a function of what the download and the vendor give: its result, its calls and its effect on the temporary file. Its meaning is stated by `Stages.TranscribeTempLifecycle` and `Stages.TranscribeWhatWasDownloaded` |
| `Stages.TranscribeTempLifecycle` | app.py:25-51 | The temporary file is removed exactly when the download succeeded and the vendor call returned, so always when transcription succeeds; when the returned text cannot be read the file is gone although the stage fails. No file exists when the download request itself fails. Otherwise the file is left behind holding what was downloaded (nothing, if reading the body failed) |
| `Stages.TranscribeWhatWasDownloaded` | app.py:29-44 | Transcription succeeds exactly when the download succeeds and the vendor returns a readable text, and its result is the vendor's text for the downloaded bytes |
| `Pipeline.Handle` | app.py:101-139 | `handle_call` as a function of the request and the vendors: response, ordered calls, temporary-file effect. What it promises is stated by the lemmas below it: `Pipeline.StatusCodes`, `Pipeline.StagesInOrder`, `Pipeline.CallsInStageOrder`, `Pipeline.FailureStopsPipeline`, `Pipeline.FailureIsProcessingError`, `Pipeline.SuccessAssemblesStageOutputs`, `Pipeline.SuccessNeedsEveryStage` and `Pipeline.TempFileOutcome` |
| `Pipeline.MissingFieldRejected` | app.py:109-110 | A missing or empty field gives 400 with the "são obrigatórios" error, no call to any collaborator and no temporary file |
| `Pipeline.NonWebUrlRejected` | app.py:111-112 | With every field present, a URL of another scheme gives 400 with the "deve ser um URL válido" error, and again nothing is called |
| `Pipeline.StatusCodes` | app.py:101-139 | The status is 200, 400 or 500. It is 400 exactly when validation fails, and exactly when no call was made |
| `Pipeline.CallsInStageOrder` | app.py:116-127 | Whatever the vendors do, the handler makes at most five calls, and its i-th call is to the i-th stage of fetch, transcribe, complete, synthesize, route: each at most once, in that order, none skipped |
| `Pipeline.StagesInOrder` | app.py:116-127 | Whatever the vendors do, the calls made are a prefix of the calls of a run with no failure, each stage given the previous stage's output: no call before validation passes, and none after a stage that raised |
| `Pipeline.FailureStopsPipeline` | app.py:116-139 | Every call except the last one returned normally, so no stage runs after one that raised |
| `Pipeline.FailureIsProcessingError` | app.py:138-139 | The status is 500 exactly when the last call raised. The body is then `{error: "Erro no processamento da chamada.", detail: <that exception's text>}` |
| `Pipeline.SuccessAssemblesStageOutputs` | app.py:116-136 | When every collaborator returns, the response is 200 with status "processed". Transcription, response, audio_file and routing_response are the stage outputs: the vendor's text, the stripped completion, "output.mp3" and the callee's routing message. The generator received the transcription, the synthesizer received the reply, and the temporary file is gone |
| `Pipeline.SuccessNeedsEveryStage` | app.py:116-136 | A 200 response only comes from a valid request on which the download, transcription, completion and synthesis all succeeded (the converse of the previous row) |
| `Pipeline.ProcessedBodyShape` | app.py:116-136 | A 200 body has status "processed", a reply without surrounding whitespace, audio file "output.mp3" and the routing message of the request's callee |
| `Pipeline.TempFileOutcome` | app.py:31-41 | A processed request leaves no temporary file and a rejected one never created one. A file left behind means a 500 raised during transcription |
| `Server.CallServer.NewTempFile` | app.py:31 | A new, empty temporary file appears under a name not in use, and no other file changes |
| `Server.CallServer.WriteFile` | app.py:32 | The downloaded bytes are appended to the file, and no other file changes |
| `Server.CallServer.RemoveFile` | app.py:41 | The file is gone, and no other file changes |
| `Server.CallServer.TranscribeAudio` | app.py:25-51 | The imperative transcription gives the outcome and the calls of `TranscribeStep`. It leaves the temporary files as they were, except a file left behind on failure |
| `Server.CallServer.GenerateResponse` | app.py:54-72 | The imperative generator gives the outcome and the call of `GenerateStep` |
| `Server.CallServer.TextToSpeech` | app.py:75-88 | The imperative synthesizer (default output file "output.mp3") gives the outcome and the call of `SynthesizeStep` |
| `Server.CallServer.HandleCall` | app.py:101-139 | The imperative handler answers with the response of `Pipeline.Handle`, appends exactly its calls to the trace and changes the temporary files exactly as its effect says |

## Left out

- Flask routing, JSON parsing and serialisation, and `app.run` (app.py:19, 100-102, 141-142) are left out. They are framework wiring. A request is modelled as its three fields, each optional.
- Non-string JSON values are left out, along with Python truthiness of numbers, lists and the like, and `startswith` on non-strings. Fields are `Option<string>`, and "missing or empty" is the falsy case.
- The aiohttp download, the Whisper and ChatCompletion calls, and gTTS are left out (app.py:27-38, 56-66, 78-79). Each is a vendor function that gives, for its input, a value or the text of the exception it raises. For the download and for Whisper the model also tells apart the two points where each can raise (before or after the temporary file is created, and before or after it is removed). Which inputs fail, and the text of their errors, is not modelled.
- The `run_in_executor` thread offload and async/await suspension (app.py:86-88) are left out. They do not change the sequential result of one request.
- Concurrent requests are left out, and so is the overwriting of the shared `output.mp3` between them.
- The content of the synthesized audio file is left out. Only the returned file name is modelled.
- Logging, dotenv loading and the API key (app.py:14, 17, 22, 43, 68, 80) are left out, along with the process-global `openai.aiosession`. These are I/O or configuration with no effect on the response. The read of the transcript's text that the log line at app.py:43 performs is modelled, as the `TextUnreadable` reply.
- Failures of the file system are left out: the temporary file cannot fail to be written, opened or removed. The model also does not cover a failing `str.strip()` when the vendor's content is not a string; that case counts as a vendor error.
- Temporary names are modelled as a counter. The random unique names of `tempfile` are not, beyond the fact that each name is unused.
