# Voice AI pipeline — a Dafny model of its request handling and browser page

The system is a voice agent. A user uploads a recording from a browser page. A FastAPI backend then:

1. stages the upload as `temp_<name>`;
2. has it transcribed by a speech-to-text service;
3. sends the transcript to a language model;
4. has the reply spoken by a text-to-speech service into `generated_audio/response_<name>.mp3`;
5. answers with that path, which the page plays back through `GET /generated_audio/{filename}`.

The backend comes in two variants. `be.py` is a standalone server that checks its three API keys at start-up. `colab_script.py` is a notebook; it loads the keys from the notebook's secrets with placeholder fallbacks and names the reply after the base name of the upload.

This project models:

- the backend's request handler and its artifact lookup, in both variants;
- the start-up key check and the notebook's key-loading loop;
- the browser script's state: file acceptance, section visibility, the three progress indicators, the guards of the processing handler, and its URL joins.

## Module layout

- `Wrappers`: `Option` and `Result` (Python's `None` and raised exceptions), plus `Get` (`dict.get`).
- `Strings`: the library string operations the core relies on.
  - `split(sep).pop()` and `os.path.basename` are `LastSegment`.
  - ASCII `toLowerCase` is `Lower`.
  - `String.prototype.trim` is `Trim`, with the ECMAScript white-space set.
  - `replace(/\/$/, '')` is `StripTrailingSlash`.
- `Storage`: the filesystem, a map from path to bytes plus a set of directories.
  - `Writable` says when `open(path, "wb")` succeeds: the parent directory must exist and the path must not be a directory.
  - `GetAudioFile` is `GET /generated_audio/{filename}`. The code is the same in both variants.
- `Pipeline`: the handler body shared by both variants.
  - `Stages` is the specification of the `try` block: the result, the files afterwards, and the log of service calls.
  - `Collapse` is the `except` clause.
  - `Host` is the process. Its fields are the environment, the files, the directories and the call log. `Host.RunStages` runs the `try` block step by step and is proved equal to `Stages`.
  - The three hosted services are function-valued fields of `Providers`. Each yields a result or `None`, as their wrappers do.
- `Backend`: `be.py`, meaning the start-up check and `process_audio`.
- `Colab`: `colab_script.py`, meaning the key-loading loop, the ngrok token fallback and `process_audio_endpoint`.
- `Frontend`: `frontend/app.js`. `Page` is a class whose fields are the DOM properties the script assigns. `Indicator` is a class holding one progress indicator's class list.

## Model

| member | source | states |
|---|---|---|
| `Wrappers.Get` | be.py:15-17 | A lookup yields a value exactly when the name is present, and then it is the stored value. |
| `Strings.LastSegmentSpec` | frontend/app.js:78 | The last segment is a suffix of the string and contains no separator. It is either the whole string or is preceded by a separator. |
| `Strings.LastSegmentUnique` | frontend/app.js:78 | Those three properties determine the last segment uniquely: it is the longest separator-free suffix. |
| `Strings.LastSegmentOfSeparatorFree` | frontend/app.js:78 | A string without the separator is its own last segment. |
| `Strings.LastSegmentAfterSeparator` | frontend/app.js:78 | Whatever precedes the last separator is dropped. |
| `Strings.Lower` | frontend/app.js:78 | Lower-casing keeps the length and maps each character by ASCII lower-casing. |
| `Strings.LowerAppend` | frontend/app.js:78 | Lower-casing distributes over concatenation. |
| `Strings.TrimSpec` | frontend/app.js:137 | The trimmed URL is the input minus a white-space prefix and a white-space suffix. It is empty exactly when the input is all white space. Otherwise it starts and ends with a non-white-space character. |
| `Strings.StripTrailingSlash` | frontend/app.js:158 | At most one '/' is removed. One is removed exactly when the string ends with '/'. |
| `Storage.ParentDir` | be.py:43 | The directory part is a prefix of the path. When it is not empty, the path is that directory, a '/', and the last segment. When it is empty, the path is its last segment, possibly after a single leading '/'. |
| `Storage.GetAudioFile` | be.py:74-80 | The lookup returns the file's bytes exactly when `generated_audio/<name>` is a stored file. It answers 404 "File not found." exactly when nothing of that name exists. A directory of that name makes the file response fail with 500. |
| `Pipeline.Stages` | be.py:40-66 | Calls go out one per stage, strictly in the order STT, LLM, TTS. STT reads the staged file, which holds the uploaded bytes. The LLM gets the whole transcript; TTS gets the whole reply and the output path. Success returns the output path after exactly three calls, with the staged file removed and the output file present. Every failure after staging leaves the staged file behind. No other file changes. |
| `Pipeline.Collapse` | be.py:68-71 | A URL is returned exactly on success, and it is the path the `try` block returned. Every failure becomes 500 "An internal server error occurred.". |
| `Pipeline.Host.RunStages` | be.py:40-66 | The step-by-step handler produces exactly the result, the files and the appended call log that `Stages` specifies. |
| `Pipeline.Host.Handle` | be.py:40-71 | The response is the collapsed result of `Stages`, with the files and the log as `Stages` specifies. |
| `Pipeline.TranscriptionFailureStops` | be.py:47-49 | An empty or missing transcript means no LLM or TTS call, a generic 500, and the staged upload left on disk. |
| `Pipeline.CompletionFailureStops` | be.py:52-54 | An empty or missing LLM reply means no TTS call, a generic 500, and the staged upload left on disk. |
| `Pipeline.SynthesisFailureReturnsNoUrl` | be.py:57-60 | When TTS yields `None`, no URL is returned and the staged upload stays. |
| `Pipeline.SuccessfulRequest` | be.py:42-66 | When every stage delivers, the call log is exactly [STT(temp), LLM(transcript), TTS(reply, output path)]. The response is the output path. The files are the old ones plus the audio at the output path, minus the staged file. |
| `Pipeline.TempRemovedOnlyOnSuccess` | be.py:63 | Once staged, the temporary file is gone exactly when the request succeeded. |
| `Pipeline.FailuresIndistinguishable` | be.py:68-71 | Any two failures, whatever stage or detail raised them, give the same 500 response. |
| `Pipeline.NestedUploadNameFailsAtStaging` | colab_script.py:125-127 | An upload name `dir/base` stages into `temp_dir/`. Unless that directory exists, staging raises before any call is made and no file changes, in both variants. |
| `Pipeline.ReplyIsRetrievable` | be.py:57-80 | A successful reply path `generated_audio/<name>` can be fetched back by `name`, and it yields exactly the audio TTS produced. |
| `Backend.StartupKeys` | be.py:15-21 | Start-up succeeds exactly when all three keys are present and non-empty, and it then holds their values. Otherwise it fails with the module's fixed message. |
| `Backend.ProcessAudio` | be.py:38-71 | The handler behaves as `Stages`, with the output path `generated_audio/response_<name>.mp3` built from the raw upload name and the start-up keys. A success returns exactly that URL; a failure returns the generic 500. |
| `Backend.ReplyServedBack` | be.py:57-78 | After a success, the response is the URL of the output path, and the lookup function serves the reply as `response_<name>.mp3`. |
| `Backend.NestedReplyDirectory` | be.py:57 | The reply to an upload named `dir/base` lies in the directory `generated_audio/response_dir`. |
| `Backend.NestedUploadNameNeverSucceeds` | be.py:57-58 | An upload name `dir/base` puts the reply in `generated_audio/response_dir/`. Unless that directory exists, the request never succeeds. |
| `Colab.ResolveSecret` | colab_script.py:17-22 | A key takes its secret when the secret is a non-empty string, and its placeholder otherwise. It is never empty when the placeholder is not. |
| `Colab.LoadApiKeys` | colab_script.py:16-22 | The loop leaves the environment as the three ordered updates specify. |
| `Colab.LoadedKeys` | colab_script.py:10-22 | After loading, each of the three keys holds its secret or its placeholder. The only names added are those three, and every other variable is unchanged. |
| `Colab.NgrokToken` | colab_script.py:24-27 | The token is the secret when that is a non-empty string, and the placeholder otherwise. It is never empty. |
| `Colab.KeysPresentAfterLoading` | colab_script.py:129-138 | After loading, none of the three `os.environ[...]` lookups can raise. |
| `Colab.ReplyPathWritable` | colab_script.py:137 | The basename output path always has `generated_audio` as its directory part. It can be written whenever that directory exists and no directory has the reply's own name. |
| `Colab.ProcessAudioEndpoint` | colab_script.py:122-146 | The handler behaves as `Stages`, with the environment's keys and the output path built from the base name of the upload. A success returns that URL, whose name part contains no '/'; a failure returns the generic 500. |
| `Frontend.LowerKeepsDots` | frontend/app.js:78 | Lower-casing neither adds nor removes dots. |
| `Frontend.ExtensionOfDotlessName` | frontend/app.js:78 | A name with no dot is matched whole, lower-cased. |
| `Frontend.ExtensionAfterLastDot` | frontend/app.js:78 | For `stem.ext`, only `ext` lower-cased is matched. |
| `Frontend.AcceptedByTypeOrExtension` | frontend/app.js:77-81 | A file `stem.ext` is accepted exactly when its MIME type is one of the six listed, or when `ext` lower-cased is wav, mp3 or m4a. |
| `Frontend.StepMarks` | frontend/app.js:111-128 | For stt, llm and tts, earlier indicators get 'completed', the current one 'active' and later ones nothing. 'done' completes all three. An unknown step adds nothing. |
| `Frontend.IndicatorStatesExclusive` | frontend/app.js:105-129 | No indicator is ever both active and completed, and other classes are untouched. |
| `Frontend.LastStepWins` | frontend/app.js:106-109 | Each update clears the previous marks, so an indicator's classes depend only on the latest step. |
| `Frontend.JoinUrl` | frontend/app.js:158 | The joined URL is `base + path` when the base ends in '/', and `base + "/" + path` otherwise. |
| `Frontend.Decimal` | frontend/app.js:172 | The status code prints as a non-empty string of decimal digits that denotes the code, with no leading zero. |
| `Frontend.FailureMessage` | frontend/app.js:170-200 | The shown message is never empty. A rejected reply shows the backend's non-empty detail, else "Server error: <status>". A thrown error shows its message, else the fixed fallback. |
| `Frontend.BackendFailureShownGenerically` | frontend/app.js:170-172 | Whatever failed on the server, the page shows "An internal server error occurred.". |
| `Frontend.Page.constructor` | frontend/app.js:30 | The page starts with nothing selected and three distinct indicators. |
| `Frontend.Page.ShowSection` | frontend/app.js:46-56 | Among loading, response and error, exactly the requested section is displayed, or none. |
| `Frontend.Page.ResetUpload` | frontend/app.js:61-68 | The selection and the file input are cleared, the preview is hidden, the upload zone shown, the button disabled, and no dynamic section is displayed. |
| `Frontend.Page.ShowError` | frontend/app.js:97-100 | The error text is the message, and the error section is the only one displayed. |
| `Frontend.Page.HandleFileSelect` | frontend/app.js:73-92 | No file changes nothing. A rejected file keeps the selection, the button, the preview and the upload zone, and shows only the error. An accepted file is selected and previewed in place of the upload zone, and it enables the button. |
| `Frontend.Page.UpdateStep` | frontend/app.js:105-129 | Each indicator's classes become its old classes without 'active'/'completed', plus the step's marks. The status line is the step's message, or unchanged for an unknown step. |
| `Frontend.Page.StartProcessing` | frontend/app.js:134-158 | No request is made exactly when nothing is selected or the trimmed URL is empty. With nothing selected, nothing changes. With an empty URL, only the error is shown. Otherwise the upload form is hidden, loading is shown, the indicators are at 'stt', and the request goes to the trimmed URL joined with `process_audio`. |
| `Frontend.Page.FinishProcessing` | frontend/app.js:170-202 | A delivered reply marks every step done, points the player at the backend URL joined with the returned path, and shows the response. Any other reply shows its failure message and brings the upload form back, leaving the indicators and the player as they were. |
| `Frontend.Page.NewRecording` | frontend/app.js:250-253 | The upload form comes back empty: the selection is cleared, the button disabled, and no dynamic section displayed. |
| `Frontend.Page.Retry` | frontend/app.js:256-259 | The upload form comes back, no dynamic section is displayed, and the selection is kept. |

## Behaviour worth knowing

- The temporary upload is deleted only on the success path (be.py:63, colab_script.py:142). After every failure after staging it stays on disk; `Pipeline.TempRemovedOnlyOnSuccess` states this.
- `os.path.exists` also holds for a directory, and serving a directory fails while the response is sent. So `Storage.GetAudioFile` answers 500, not the file or 404, when `generated_audio/<name>` is a directory.
- When `fetch` throws, the two `clearTimeout` calls (frontend/app.js:167-168) are skipped. The pending 'llm' and 'tts' timers then still fire after the error is shown, and can advance the indicators, possibly during a later request.

## Left out

- Speech-to-text: `stt.py` is not part of this model. Like the language-model wrapper (llm.py) and the speech wrapper (tts.py and colab_script.py:47-104), it is represented only by its contract: a result, or `None` for any client error. The HTTP requests, models, voices and audio formats are not modelled.
- Byte-level copying of the upload (`shutil.copyfileobj`) and the chunked TTS stream are single whole-file writes. A partial file left by a failure in mid-stream is not modelled.
- `Pipeline.Stages` treats paths as plain strings: no normalisation of `..`, `.` or repeated '/', no absolute paths, no permissions. A write fails only when the parent directory is missing or the path is a directory.
- An upload without a file name (FastAPI passes `None`) and the 422 answer to a request without `audio_file` are not modelled.
- `Colab.LoadApiKeys`: a missing secret reads as `None`, which is the model's assumption and the case the code tests for. The notebook secret store itself raises an error for a missing secret, so in the real notebook the placeholder branch is reached only for an empty secret. That error is not modelled.
- The `print` logging, `load_dotenv`, CORS, uvicorn, the ngrok tunnel and its thread, the `!pip` lines, the embedded Streamlit app (colab_script.py:157-220, fe.py) and the start-up creation of `generated_audio` are left out. The directory's existence is a parameter, the `dirs` set.
- `Strings.Lower`: lower-casing is ASCII only. JavaScript's full Unicode `toLowerCase` can only differ on non-ASCII letters, and none of those maps to a letter of wav/mp3/m4a or to '.'.
- `formatFileSize` and the file-size text (frontend/app.js:35-41, 88) are left out because they use floating-point logarithms and `toFixed`.
- `fetch`, the JSON decoding, the two `setTimeout` step timers, the 500 ms pause and `audioPlayer.play` are left out. The timers' `updateStep('llm')` and `updateStep('tts')` calls are `Frontend.Page.UpdateStep` with those steps. How the request ended is the parameter `Reply` of `Frontend.Page.FinishProcessing`.
- `Storage.GetAudioFile` models the Python function, not the HTTP route. The route's `{filename}` segment does not match '/', so a reply for an upload named `dir/base` is not fetchable over HTTP even when it was written. `Backend.ReplyServedBack` speaks of the function.
- The DOM event wiring, drag-and-drop and its CSS class (frontend/app.js:205-268) are left out. The handlers they call are modelled.
- `Frontend.Page.UpdateStep`: the unused second parameter `status` of `updateStep` is not modelled.
- `Frontend.FailureMessage`: a `detail` that is not a string (a JSON object or number) is treated as absent rather than converted with `String(...)`.
