# Whisper transcription and translation suite — a Dafny model

The system is a speech-to-text web application in four parts:

- a browser client (`frontend/src/js`) that uploads an audio file, shows the transcript, optionally translates it, and reads it aloud;
- a Flask backend (`backend/src`) wrapping OpenAI Whisper, with a translation core, a retry decorator, authentication decorators and a transcription blueprint;
- a standalone Flask translation service (`translation-service`) over Google Translate;
- a Flask text-to-speech service (`tts-service`) writing audio files with gTTS, or with Coqui TTS as a fallback.

This project models the logic of those parts and proves properties of it. Each source file becomes one Dafny module:

- Code that computes a value becomes datatypes, functions and lemmas. This covers request validation, the route handlers' early-return ladders, language tables, reply shapes and URL rewriting.
- Code that updates an object step by step becomes a `class`. This covers `WhisperAPI`, `WhisperApp`, `AudioHandler`, both `TTSService`s, `SimpleTTSService`, the Whisper wrapper and the translation core's model state (`translation_core.py`). The two `translation_service.py` modules are modelled on values, with their loaded state as a parameter. Its fields are what the source's object keeps, its methods carry `modifies` clauses, and the source's retry loops become `while` loops proved against recursive specifications.

Whatever lies outside the code is a parameter or an oracle function. This covers the network (`fetch`, `requests`), the machine-learning libraries (Whisper, Google Translate, gTTS, Coqui), the file system, the clock and `uuid4`. The network is represented by the outcome it gives for a request. Waits and sleeps are recorded in a trace or counted; they are not timed.

The proofs show some behaviour of the source that is easy to miss. The model keeps each of these as written:

- The `cleanupCurrent` call that `speakTranscript` and `resetApp` in `app.js` make on the speech client never sends a DELETE. `TTSService.synthesize` never sets the speech client's own `currentAudioId`, so `cleanupCurrent` always finds no id (`App.SpeakSynthesisesTranscript`). `clearTTSAudio` is different: it sends a DELETE for the application's own audio id (`App.ClearHidesAndClearsOnSuccess`).
- In `startTranscription`, a direct task whose reply is JSON `null` reports 100 and ends the run without an error. The `TypeError` comes later, inside the 500 ms timer, where no `catch` sees it, so nothing is shown (`App.DirectSummary`).
- For task `translate`, 50 is reported as soon as the transcription returns. A reply without a readable `result.text` then fails the run at 50. A missing or `null` text makes `translateText` throw on `text.length` before any request is sent (`App.MissingTextStopsBeforeTranslation`).
- In the backend translation core, `ServiceNotLoadedError` and `InvalidInputError` subclass `TranslationError`. The `with_retry` decorator therefore retries a rejected call three times before the error surfaces (`TranslationCore.RejectionRetried`).
- Whisper's `loading` status is never observed by a caller. `_load_model` runs synchronously in the constructor and clears the flag before returning (`WhisperService.NeverSeenLoading`).
- The backend's `/api/v1/translate` proxy answers 503 when the translation service replies 200 with a body that does not decode as JSON.
- In `token_required`, a valid token whose claims lack `user_id` raises a `KeyError` that no handler of the decorator catches. Flask then turns it into a 500.
- In `language-config.js`, `text_to_speech` raises `KeyError('')` for an empty language code, and the requested quality is never used. The `KeyError` is reachable only when the function is called directly: over HTTP, FastAPI's validation of the required form field `language` answers 422 for an empty value, and that validation is not part of this model.

## Model

| member | source | states |
|---|---|---|
| TranslationErrors.ValidationErrorsAreTranslationErrors | backend/src/services/errors.py:2-12 | `ServiceNotLoadedError` and `InvalidInputError` are caught by a `TranslationError` handler; a `ValueError` is not |
| RetryManager.Wrapper | backend/src/services/retry_manager.py:13-22 | the loop's result, number of calls and number of sleeps are those of the recursive specification `WithRetry` |
| RetryManager.CallsBounded | backend/src/services/retry_manager.py:15-21 | the function is called at most `max_retries` times and at least once when `max_retries ≥ 1`; there are fewer sleeps than calls |
| RetryManager.FirstDecidingAttempt | backend/src/services/retry_manager.py:15-19 | the first attempt that returns, or raises a class that is not retried, decides the result after k+1 calls and k sleeps |
| RetryManager.DecidingFrom | backend/src/services/retry_manager.py:15-19 | the same, from any attempt on |
| RetryManager.AllAttemptsFail | backend/src/services/retry_manager.py:15-22 | when every attempt raises a retried class, there are `max_retries` calls and `max_retries - 1` sleeps, and the last error is re-raised |
| RetryManager.FailingFrom | backend/src/services/retry_manager.py:15-22 | the same, from any attempt on |
| RetryManager.NoAttempts | backend/src/services/retry_manager.py:14-22 | with `max_retries ≤ 0` the function is never called, and `raise None` raises a `TypeError` |
| LanguageManager.GetLanguageName | backend/src/services/language_manager.py:9-11 | a name that is returned is the table's entry for that code |
| LanguageManager.GetAvailableLanguages | backend/src/services/language_manager.py:13-15 | the 20-entry table; every lookup through it agrees with `get_language_name` |
| LanguageManager.ValidIffNamed | backend/src/services/language_manager.py:5-11 | a code is valid exactly when it has a name |
| LanguageManager.TwentyCodes | backend/src/services/constants.py:6-12 | `LANGUAGE_NAMES` has 20 codes; `en` is English; the empty code is not valid |
| TranslationCore.TranslateSucceeds | backend/src/services/translation_core.py:30-42 | the decorated `translate` succeeds exactly when a model is loaded, the text is non-empty and the target code is valid; it then returns `Translated(text, target)` after one call |
| TranslationCore.RejectionRetried | backend/src/services/translation_core.py:30-38 | a rejected call raises its first failing check (model, then text, then code), and only after three calls and two sleeps |
| TranslationCore.TranslationService.constructor | backend/src/services/translation_core.py:16-18 | no model at first |
| TranslationCore.TranslationService.LoadModel | backend/src/services/translation_core.py:20-28 | the placeholder model is stored |
| TranslationCore.TranslationService.Translate | backend/src/services/translation_core.py:30-45 | the result, calls and sleeps are those of `TranslateSpec`, i.e. `with_retry`'s defaults over the checks |
| TranslationCore.NotLoadedFails | backend/src/services/translation_core.py:33-34 | before `load_model`, every call raises `ServiceNotLoadedError` after three calls |
| TranslationCore.LoadedTranslates | backend/src/services/translation_core.py:20-42 | after `load_model`, a valid input is translated on the first call |
| Tables.Get | backend/src/services/language_manager.py:9-11 | a value found for a key is one stored under that key |
| Tables.GetMisses | frontend/src/js/language-config.js:61 | nothing is found exactly when no entry has the key |
| Tables.Keys | backend/src/services/translation_service.py:120-123 | the keys in the table's order, one per entry |
| Tables.GetFindsKeys | backend/src/services/language_manager.py:5-11 | a key has a value exactly when it is one of the keys |
| LanguageNames.NameOr | backend/src/services/translation_service.py:132-134 | the table's name for a known code, the code itself otherwise |
| TranslationService.ValidateTranslationInput | backend/src/services/translation_service.py:61-70 | only validation errors are raised; none is raised exactly when the translator is loaded, the text is not blank and a target is given |
| TranslationService.ValidationOrder | backend/src/services/translation_service.py:61-70 | a missing translator is reported first, then blank text, then a missing target, each with its own message |
| TranslationService.TranslatorRequest | backend/src/services/translation_service.py:77-79 | `src` is passed exactly when a source language is given |
| TranslationService.Pow2 | backend/src/services/translation_service.py:82 | the wait `2 ** attempt` is at least one second |
| TranslationService.PerformTranslationWithRetry | backend/src/services/translation_service.py:72-86 | the loop's result, number of calls and waits are those of the recursive specification `RateLimitRetry` |
| TranslationService.RateLimitDecides | backend/src/services/translation_service.py:72-86 | the first attempt that is not a retried rate-limit error decides the result, after k+1 calls and waits of 1 s, 2 s, … |
| TranslationService.RateLimitBounded | backend/src/services/translation_service.py:72-90 | one to three calls, waits of 1 s then 2 s; an error that ends the loop early is not a rate-limit error |
| TranslationService.WrapFailure | backend/src/services/translation_service.py:114-118 | validation errors pass unchanged; any other error becomes a `TranslationError` with the prefixed message |
| TranslationService.TranslationResponse | backend/src/services/translation_service.py:101-109 | the response has exactly the seven keys, with the input text and target and the translator's text and source |
| TranslationService.TranslateTextOutcome | backend/src/services/translation_service.py:92-118 | invalid input is raised before any call; otherwise one to three calls; a final error is wrapped; a success reports the input, the target, its name (or the code) and the translation |
| TranslationService.GetSupportedLanguages | backend/src/services/translation_service.py:120-130 | the library's codes when the translator is loaded and the import succeeds, the table's keys otherwise |
| TranslationService.UnloadedListsTable | backend/src/services/translation_service.py:120-123 | without a translator the backend lists 20 codes |
| TranslationService.DetectLanguageChecks | backend/src/services/translation_service.py:136-143 | detection checks for a translator, then for non-blank text, each with its own message |
| TranslationService.DetectLanguageReports | backend/src/services/translation_service.py:145-162 | past the checks, a success reports the detected code and its name (or the code); a failure becomes `Language detection failed: …` |
| TranslationService.DetectionReport | backend/src/services/translation_service.py:148-153 | the detection response carries the detected code, its name from the table (the code itself when unnamed) and the detector's confidence |
| StandaloneTranslation.CodeMapping | translation-service/translation_service.py:63-68 | every alias maps to `zh-cn` |
| StandaloneTranslation.NormalizeShape | translation-service/translation_service.py:260-269 | the empty code stays empty; otherwise the lower-cased, stripped code, with the three Chinese aliases mapped to `zh-cn` |
| StandaloneTranslation.NormalizeIdempotent | translation-service/translation_service.py:260-269 | normalising twice gives the same code as normalising once |
| StandaloneTranslation.SimplifiedChineseSettles | translation-service/translation_service.py:63-68 | `zh-cn` normalises to itself |
| StandaloneTranslation.StripLowerSettles | translation-service/translation_service.py:266 | lower-casing and stripping a lower-cased, stripped code changes nothing |
| StandaloneTranslation.MockAnswer | translation-service/translation_service.py:244 | the canned answer stored for the (text, target) pair, and `[MOCK] <text> -> <target>` exactly when the pair has none |
| StandaloneTranslation.MockTranslate | translation-service/translation_service.py:227-258 | the eight keys; the canned answer or `[MOCK] text -> target`; source `en` when none is given; confidence 0.9; the mock service name |
| StandaloneTranslation.GoogleResponse | translation-service/translation_service.py:284-293 | the eight keys, with the input text, the normalised target, the translator's text and `google_translate` |
| StandaloneTranslation.NormalizedRequest | translation-service/translation_service.py:276-282 | the translator gets the normalised target, and a source only when one is given and it normalises to a non-empty code |
| StandaloneTranslation.StandaloneValidatesFirst | translation-service/translation_service.py:273-274 | invalid input raises its validation error, unwrapped, before any translator call |
| StandaloneTranslation.StandaloneCallsTranslator | translation-service/translation_service.py:276-282 | after validation, the translator is called one to three times with the normalised target |
| StandaloneTranslation.StandaloneSuccess | translation-service/translation_service.py:282-296 | a translation reports the input text, the normalised target, the translated text and `google_translate` |
| StandaloneTranslation.StandaloneFailure | translation-service/translation_service.py:298-310 | a final SSL certificate error returns the mock translation for the normalised codes; any other error raises `Translation failed: …` |
| StandaloneTranslation.SettleFailure | translation-service/translation_service.py:300-310 | the same, for the handlers alone |
| StandaloneTranslation.StandaloneListsTable | translation-service/translation_service.py:312-315 | without a translator the standalone service lists its 38 codes |
| TranslationApp.Unsuccessful | translation-service/app.py:109-116 | a failure reply with the given status and message and `success: False` |
| TranslationApp.Translate | translation-service/app.py:70-116 | a pre-flight gets an empty 200; otherwise 503 exactly when the body passes its checks but the translator is not loaded, and 200 exactly when it passes, the translator is loaded and the translation returns |
| TranslationApp.TranslateChecksBodyFirst | translation-service/app.py:80-116 | a missing body, text or target gives its own 400 even without a translator; a translation is wrapped as `{success, result}`; a raised one gives 500 with its message |
| TranslationApp.Languages | translation-service/app.py:118-137 | always 200 with `success: True`: the service's list, or the 8 fallback codes with the error message |
| TranslationApp.Health | translation-service/app.py:39-53 | always 200; `translator_status` is `loaded` exactly when the translator loaded, `not_loaded` otherwise |
| TranslationApp.Detect | translation-service/app.py:139-163 | 400 exactly when the body or its text is missing; 200 exactly when both are present and detection returns |
| TranslationApp.DetectRejections | translation-service/app.py:146-163 | a missing body is reported before a missing text; a failed detection gives 500 with its message |
| Handlers.ErrorReply | backend/src/routes/transcription.py:34 | a JSON reply with the given status whose `error` is the message |
| Handlers.Success | backend/src/routes/transcription.py:100-103 | a 200 reply holding the given fields and `success: True` |
| Handlers.Failure | backend/src/routes/transcription.py:83-85 | the 500 reply of `except Exception as e`, whose `error` is the exception's message |
| Handlers.GetField | backend/src/routes/transcription.py:146 | `data.get(key)` reads the field of an object and raises `AttributeError` on any other body |
| TranscriptionRoutes.AllowedSuffix | backend/src/routes/transcription.py:16-19 | a name is allowed exactly when the lower-cased text after its last dot is one of the 7 extensions |
| TranscriptionRoutes.DottedExtensions | backend/src/routes/transcription.py:14 | the browser's dotted extension list is the server's list, each with a leading dot |
| TranscriptionRoutes.AllowedFileMatchesBrowser | backend/src/routes/transcription.py:16-19 | the server accepts exactly the file names the browser's extension check accepts |
| TranscriptionRoutes.Unavailable | backend/src/routes/transcription.py:26-30 | a 503 reply naming the missing service, with its detail message |
| TranscriptionRoutes.TaskOf | backend/src/routes/transcription.py:49 | the task defaults to `transcribe` |
| TranscriptionRoutes.Transcribe | backend/src/routes/transcription.py:21-85 | 503 exactly without a service; 400 exactly when the upload or task is rejected; 200 exactly when it is accepted and the service returns, with the result and the secured file name |
| TranscriptionRoutes.TranscribeRejections | backend/src/routes/transcription.py:33-52 | a missing file, an empty name, an unsupported type and a bad task each get their own 400, in that order |
| TranscriptionRoutes.TaskDefaultsToTranscribe | backend/src/routes/transcription.py:48-70 | without a `task` field the service is asked to transcribe |
| TranscriptionRoutes.Languages | backend/src/routes/transcription.py:87-106 | the 8 fallback codes and a note without a service; the service's list, or 500 when it raises |
| TranscriptionRoutes.ModelInfo | backend/src/routes/transcription.py:108-128 | a `not_loaded` stand-in without a service; the service's info, or 500 when it raises |
| TranscriptionRoutes.TranslationLanguages | backend/src/routes/transcription.py:172-191 | the 10 fallback codes and a note without a service; the service's list, or 500 when it raises |
| TranscriptionRoutes.Translate | backend/src/routes/transcription.py:130-170 | 503 exactly without a service; 200 exactly when the body has a text and a target and the translation returns |
| TranscriptionRoutes.TranslateRejections | backend/src/routes/transcription.py:142-170 | a missing body, text or target each get their own 400; a raised translation gives 500 with its message |
| TranscriptionRoutes.DetectLanguage | backend/src/routes/transcription.py:193-224 | 503 exactly without a service; 200 exactly when the body has a text and detection returns |
| TranscriptionRoutes.DetectRejections | backend/src/routes/transcription.py:205-224 | a missing body, then a missing text, each get their own 400; a failed detection gives 500 |
| BackendApp.WithPid | backend/src/app.py:128-132 | the body has the given fields plus `pid`, and no other change |
| BackendApp.Refusal | backend/src/app.py:186-188 | a reply with the given status, `error` message and `success: False` |
| BackendApp.Backend.constructor | backend/src/app.py:26-27 | no service exists at module load |
| BackendApp.Backend.GetWhisperService | backend/src/app.py:29-35 | the existing service is returned unchanged; otherwise one is created with the environment's model size and loaded; at most one is ever created |
| BackendApp.Backend.Health | backend/src/app.py:67-86 | a pre-flight changes nothing; otherwise the service exists afterwards and the reply is `HealthReply` of it |
| BackendApp.Backend.Languages | backend/src/app.py:113-139 | a pre-flight changes nothing; otherwise the service exists afterwards and the reply is `LanguagesReply` of it |
| BackendApp.Backend.ModelInfo | backend/src/app.py:141-164 | a pre-flight changes nothing; otherwise the service exists afterwards and the reply is `ModelInfoReply` of it |
| BackendApp.Backend.Transcribe | backend/src/app.py:173-270 | a rejected upload gets its 400 without creating the service; an accepted one gets `TranscribeReply` of the (possibly new) service |
| BackendApp.HealthReply | backend/src/app.py:74-86 | always 200 and `healthy`; `whisper_model` is the service's status; `timestamp` is the clock reading passed in |
| BackendApp.HealthAgreesWithModelInfo | backend/src/app.py:75 | `/health` reports the same status as the service's `get_model_info()` |
| BackendApp.LanguagesReply | backend/src/app.py:120-139 | always a 200 success: the 4 minimal codes after a fault, the service's list when loaded, the 12 fixed codes otherwise |
| BackendApp.LanguagesFollowService | backend/src/app.py:120-124 | without a fault the route lists exactly what the service's `get_supported_languages` gives, loaded or not |
| BackendApp.ModelInfoReply | backend/src/app.py:148-164 | always a 200 success: the service's info when loaded, otherwise a stand-in whose status is the service's status |
| BackendApp.UploadRejection | backend/src/app.py:186-193 | no rejection exactly when a file with a non-empty name was sent; a missing file is reported before an empty name |
| BackendApp.MockSegment | backend/src/app.py:248-254 | one segment with `start`, `end` and `text` |
| BackendApp.MockResult | backend/src/app.py:244-255 | the four keys; the language is the form's or `en`; the model size is `mock`; a single segment |
| BackendApp.Transcribed | backend/src/app.py:216-228 | 200 with the service's result exactly when it returns; otherwise 500 with `Server error: …` |
| BackendApp.MockReply | backend/src/app.py:239-259 | a 200 success whose result is the mock result for the uploaded name |
| BackendApp.TranscribeReply | backend/src/app.py:202-259 | 200 or 500; without a loaded model, the mock reply |
| BackendApp.LanguageArgument | backend/src/app.py:196-218 | a language is passed exactly when the form has a non-empty one |
| BackendApp.LoadedReply | backend/src/app.py:205-228 | with a loaded model, the reply is the service's outcome on the file saved under the secured name |
| BackendApp.LoadedTranscription | backend/src/app.py:205-270 | with a loaded model, 200 with the shaped transcription exactly when the model call succeeds, otherwise 500 with `Server error: Transcription failed: …` |
| BackendApp.TranslateProxy | backend/src/app.py:271-317 | an empty body gets 400; a 200 that decodes is passed through; a 200 that does not decode, or a failed request, gets 503; any other status is echoed with `Translation service error: <code>` |
| BackendApp.TranslationLanguagesProxy | backend/src/app.py:330-368 | always 200: a decoded 200 is passed through; anything else gets the 10 fallback codes as a success |
| WhisperService.ChooseModelSize | backend/src/services/whisper_service.py:14 | a non-empty requested size wins; otherwise the environment's size, else `small` |
| WhisperService.LoadSettles | backend/src/services/whisper_service.py:20-45 | a load already running is left alone; otherwise the load ends with the flag cleared, holding the model exactly when loading succeeded |
| WhisperService.ModelStatus | backend/src/services/whisper_service.py:108 | `loaded`, `loading` and `not_loaded` each hold exactly in their own state |
| WhisperService.TranscribeOptions | backend/src/services/whisper_service.py:62-64 | the task and `fp16: False`; a language only when a non-empty one is given |
| WhisperService.SegmentJson | backend/src/services/whisper_service.py:77-81 | a segment keeps its start and end and has its text stripped |
| WhisperService.SegmentsJson | backend/src/services/whisper_service.py:72-83 | every segment is shaped, in order; none when the result has no segments |
| WhisperService.TranscriptionResponse | backend/src/services/whisper_service.py:68-83 | the four keys: the stripped text, the language or `unknown`, the model size and the shaped segments |
| WhisperService.SimpleWhisperService.constructor | backend/src/services/whisper_service.py:13-18 | the chosen size, the CPU device, and the state after one load |
| WhisperService.SimpleWhisperService.LoadModel | backend/src/services/whisper_service.py:20-45 | the new model and flag are those of `LoadSpec` |
| WhisperService.SimpleWhisperService.GetSupportedLanguages | backend/src/services/whisper_service.py:92-101 | the library's list when the model is loaded and the import succeeds, the 12 fixed codes otherwise |
| WhisperService.SimpleWhisperService.GetModelInfo | backend/src/services/whisper_service.py:103-111 | the five keys, with the model size, the device and the status |
| WhisperService.StatusMatchesLoaded | backend/src/services/whisper_service.py:47-49 | the status is `loaded` exactly when `is_model_loaded()` holds |
| WhisperService.NeverSeenLoading | backend/src/services/whisper_service.py:17-45 | after the constructor or any load the flag is false, so the status is never `loading` |
| WhisperService.TranscribeOutcome | backend/src/services/whisper_service.py:51-90 | the model is called on the path with `TranscribeOptions`; a result exactly when the model is loaded, the file exists and that call returns; otherwise the first failing check's message, or `Transcription failed: …`; a result carries the stripped text and the model size |
| TtsApp.Mp3IsNotWav | tts-service/app.py:109-110 | the mp3 and wav paths of one id are different files |
| TtsApp.TextField | tts-service/app.py:83-86 | on an object, the `text` field if present; other bodies give the `TypeError` Python raises for them |
| TtsApp.BodyText | tts-service/app.py:82-86 | the text field exactly when the body is an object that has one; otherwise a 400 or 500 reply |
| TtsApp.SynthesisText | tts-service/app.py:82-88 | the text exactly when the body is an object whose `text` is a non-blank string; otherwise a 400 or 500 reply |
| TtsApp.SynthesisRejections | tts-service/app.py:83-88 | a missing body or `text` gives `Text is required`; a blank text gives `Text cannot be empty` |
| TtsApp.DownloadReply | tts-service/app.py:105-117 | the mp3 if it exists, else the wav, else 404 |
| TtsApp.CleanedIsNotFound | tts-service/app.py:105-146 | after a cleanup, the download of that id is 404 |
| TtsApp.WrittenIsServed | tts-service/app.py:40-67 | a freshly written mp3 is served; a wav is served when no mp3 of that id exists |
| TtsApp.SimpleTtsService.constructor | tts-service/app.py:14-38 | available exactly when gTTS or Coqui imports; no Coqui model yet |
| TtsApp.SimpleTtsService.Synthesize | tts-service/app.py:40-67 | `ValueError` when unavailable; the mp3 via gTTS; else the wav via Coqui, whose model is kept only once its construction returned; `ImportError` when neither imports; a failed write raises its exception and leaves the file behind exactly when it had been created |
| TtsApp.SimpleTtsService.Health | tts-service/app.py:71-77 | 200 exactly when available, 503 otherwise; `tts_available` reports the flag |
| TtsApp.SimpleTtsService.SynthesizeRoute | tts-service/app.py:79-103 | body errors come first, then 503 without a library; 200 exactly when the body is valid, synthesis reaches the write and the write succeeds, and the new id can then be downloaded; a failed write that created its file gives 500, yet that file is served |
| TtsApp.SeparatorTextIsEmpty | tts-service/app.py:87-88 | a text made only of one of the separators U+001C to U+001F is refused as `Text cannot be empty` |
| TtsApp.SimpleTtsService.Cleanup | tts-service/app.py:129-146 | both files of the id are removed; 200 exactly when either existed, 404 `File not found` otherwise |
| Auth.UpToSpace | backend/src/utils/auth.py:27 | a prefix of the text with no space, followed by a space or the end |
| Auth.TokenOf | backend/src/utils/auth.py:26-27 | after a `Bearer ` prefix, the piece up to the next space; otherwise the whole header |
| Auth.BearerToken | backend/src/utils/auth.py:26-27 | `Bearer <credential>` yields the credential when it has no space |
| Auth.UpToSpaceOfSpaceless | backend/src/utils/auth.py:27 | a text without spaces is its own first piece |
| Auth.TokenRequired | backend/src/utils/auth.py:16-38 | a missing or empty header gives 401 `Token is missing`; the view is called exactly when the decoded token has a `user_id`, and with that `user_id` |
| Auth.TokenVerdicts | backend/src/utils/auth.py:29-34 | an expired token gives `Token has expired`; another invalid one gives `Token is invalid`; claims without `user_id` raise an uncaught `KeyError` |
| Auth.BearerUser | backend/src/utils/auth.py:20-36 | with `Bearer <credential>`, the view receives the `user_id` decoded from that credential |
| Auth.RequireApiKey | backend/src/utils/auth.py:48-63 | the view is called exactly when no key is configured or the header equals it; otherwise 401 `Invalid API key` |
| Audio.Extension | frontend/src/js/audio.js:151-155 | after a dot, the lower-cased text from the last dot on, dot included; without a dot, the whole lower-cased name |
| Audio.SupportedExtensionsDotted | frontend/src/js/audio.js:152 | each supported extension is a dot followed by dot-free letters |
| Audio.NoDotNoExtension | frontend/src/js/audio.js:151-155 | a name without a dot never passes the extension check |
| Audio.ExtensionOfSuffix | frontend/src/js/audio.js:153 | the extension of `<stem>.<suffix>` is the lower-cased suffix with its dot, whatever the stem holds |
| Audio.LastSuffixDecides | frontend/src/js/audio.js:151-155 | a name passes exactly when its last suffix, lower-cased, is supported |
| Audio.SuffixExamples | frontend/src/js/audio.js:152 | `MP3` is accepted in any case and `txt` is not |
| Audio.UnsupportedTypeMessage | frontend/src/js/audio.js:34 | the message starts with `Unsupported file type: ` |
| Audio.Violations | frontend/src/js/audio.js:18-41 | `No file selected` is reported exactly when there is no file |
| Audio.ViolationMessage | frontend/src/js/audio.js:22-34 | each violation's line: `No file selected`, the size line with both sizes, or the type line |
| Audio.AudioHandler.constructor | frontend/src/js/audio.js:5-13 | no URL tracked or revoked |
| Audio.AudioHandler.ValidateFile | frontend/src/js/audio.js:18-41 | valid exactly when there are no errors; no file is the only error when there is none; otherwise the size error exactly when too large and the type error exactly when neither the type nor the extension is supported, size first |
| Audio.AudioHandler.CreateAudioPreview | frontend/src/js/audio.js:46-96 | the new URL state and result are those of `PreviewSpec` |
| Audio.AudioHandler.Cleanup | frontend/src/js/audio.js:141-146 | nothing is tracked afterwards and each tracked URL is revoked once, after the earlier revocations |
| Audio.PreviewKeepsValid | frontend/src/js/audio.js:54-84 | no tracked URL is revoked after a preview; a loaded preview's URL is tracked; a failed one leaves the tracked set as it was |
| Audio.CleanupRevokesAll | frontend/src/js/audio.js:141-146 | after cleanup nothing is tracked and every URL that was tracked has been revoked |
| Audio.Pad2 | frontend/src/js/audio.js:179 | two digits that read back as the number |
| Audio.FormatDuration | frontend/src/js/audio.js:173-180 | whole seconds render as `m:ss` |
| Audio.FormatDurationRoundTrip | frontend/src/js/audio.js:173-180 | reading `m:ss` back gives the number of seconds, and the seconds part is below 60 |
| Audio.NonFiniteIsZero | frontend/src/js/audio.js:174-176 | a non-finite input renders as zero seconds do, `0:00` |
| WhisperApi.ApiBaseFor | frontend/src/js/api.js:64-65 | a health URL `<origin>/health` that answered gives the API base `<origin>/api/v1`: the path segment is rewritten (the corrected reading of line 65) |
| WhisperApi.ApiBaseOfHealthUrl | frontend/src/js/api.js:64-65 | for every origin, the base derived from `<origin>/health` is `<origin>/api/v1`, as the constructor pairs them |
| WhisperApi.ApiBaseAsWrittenMisrewrites | frontend/src/js/api.js:40-65 | for a host named `health…`, the first-occurrence rewrite of the second candidate hits the `//health` after the scheme and yields `http://api/v1…:5000/health`, while the intended base is `http://<host>:5000/api/v1` |
| WhisperApi.InitialOrigin | frontend/src/js/api.js:16-22 | a loopback hostname talks to port 5000 of itself; any other host to `http://whisper-backend:5000` |
| WhisperApi.TestUrls | frontend/src/js/api.js:37-50 | the candidates start with the current health URL and `http://<host>:5000/health`; 7 candidates for `localhost`/`127.0.0.1`, ending with the three service health URLs, and 4 otherwise |
| WhisperApi.AttemptEffects | frontend/src/js/api.js:55-72 | a failed attempt is one probe of its URL, followed by a wait only when the probe threw and it was not the URL's last attempt |
| WhisperApi.ProbeFrom | frontend/src/js/api.js:52-75 | a winner found from candidate `i` on is a candidate index at or after `i` |
| WhisperApi.FetchedAppend | frontend/src/js/api.js:52-75 | the URLs fetched by two traces in sequence are those of the first followed by those of the second |
| WhisperApi.WaitCountAppend | frontend/src/js/api.js:70-72 | waits of two traces in sequence add up |
| WhisperApi.RepeatEach | frontend/src/js/api.js:52-53 | each of the candidates repeated `retries` times has `len(urls) × retries` entries |
| WhisperApi.AllFailFrom | frontend/src/js/api.js:52-78 | when no probe answers OK, probing from any point finds no winner and fetches each remaining URL once per remaining attempt, in order |
| WhisperApi.AllProbesFail | frontend/src/js/api.js:52-78 | when every probe fails, there is no winner and exactly `len(testUrls) × retries` probes are made, each URL `retries` times in list order |
| WhisperApi.WaitsFrom | frontend/src/js/api.js:68-72 | from any point, thrown probes wait once per attempt except the last of each URL; non-OK replies never wait |
| WhisperApi.ThrownProbesWait | frontend/src/js/api.js:68-72 | when every probe throws, the client waits `len(urls) × (retries − 1)` times: never after a URL's last attempt |
| WhisperApi.NotOkProbesNeverWait | frontend/src/js/api.js:62-67 | when every probe answers non-OK, the client retries at once and never waits |
| WhisperApi.FirstOkFrom | frontend/src/js/api.js:52-67 | the first OK attempt in probing order is the winner, and its probe is the last effect: nothing is probed after it |
| WhisperApi.FirstOkWins | frontend/src/js/api.js:62-66 | the first OK probe stops all probing, and the winner is that candidate |
| WhisperApi.FirstOkIndex | frontend/src/js/api.js:52-53 | when some attempt answers OK there is a first such attempt in probing order |
| WhisperApi.ConnectsWhenSomeProbeOk | frontend/src/js/api.js:52-67 | the connection test succeeds whenever any candidate answers OK on any of its attempts |
| WhisperApi.InitialState | frontend/src/js/api.js:11-31 | a fresh client has not yet checked its connection, has an empty cache, and its health URL is that of its initial origin |
| WhisperApi.TestConnectionSpec | frontend/src/js/api.js:36-79 | the connection test leaves the memo and the cache as they were; a winning candidate becomes the health URL, and its first-occurrence rewrite of line 65 the base URL |
| WhisperApi.ApiBaseAsWrittenOnPlainOrigin | frontend/src/js/api.js:64-65 | for every origin that does not itself contain `/health`, the first-occurrence rewrite of `<origin>/health` is `<origin>/api/v1`, the same as the intended rewrite |
| WhisperApi.HttpErrorMessage | frontend/src/js/api.js:123-133 | the message is the body's non-empty `error` text, and `HTTP <status>: <statusText>` when the body is not JSON |
| WhisperApi.MemoisedRequestDoesNotProbe | frontend/src/js/api.js:85-91 | once the connection check has succeeded, a request makes at most one fetch, to `baseURL + endpoint`, and never waits |
| WhisperApi.UnreachableBackend | frontend/src/js/api.js:85-89 | when a client that has not checked its connection sees every probe fail, it throws `Backend service is not accessible`, keeps its state, and has probed every candidate 3 times |
| WhisperApi.RepeatedGetServedFromCache | frontend/src/js/api.js:94-141 | after a successful GET, the same GET returns the same value with no fetch and no state change, and the value is stored under `GET-<url>` |
| WhisperApi.TestConnectionIgnoresCache | frontend/src/js/api.js:36-79 | the connection test's outcome, trace and new state do not depend on the cache |
| WhisperApi.SendNonGet | frontend/src/js/api.js:97-139 | a non-GET request, once connected, leaves the cache unchanged, and its result does not depend on the cache |
| WhisperApi.NonGetBypassesCache | frontend/src/js/api.js:97-139 | a non-GET request never writes the cache, and its result and trace are the same whatever the cache holds |
| WhisperApi.HttpErrorKeepsState | frontend/src/js/api.js:123-152 | a non-OK response fails with the server's message and leaves the memo and the cache unchanged |
| WhisperApi.NetworkErrorResetsMemo | frontend/src/js/api.js:147-150 | a `TypeError` mentioning `fetch` fails with `Network error: Cannot connect to backend at <url>` and clears the memo, keeping the cache |
| WhisperApi.PostEndsWithItsFetch | frontend/src/js/api.js:86-121 | a successful POST's last effect is its own fetch, to the base URL the client holds after discovery |
| WhisperApi.TranscribeForm | frontend/src/js/api.js:196-208 | the form always sends `audio` first and `task`; `language` exactly when non-empty; `target_language` exactly when the task is `translate` and the target is non-empty |
| WhisperApi.TranscribeFormTask | frontend/src/js/api.js:203 | the form carries exactly one `task` value, the one asked for |
| WhisperApi.TranslateBody | frontend/src/js/api.js:253-256 | the body carries the text and the target language |
| WhisperApi.WhisperAPI.constructor | frontend/src/js/api.js:11-31 | the new client's state is the initial state for its host |
| WhisperApi.WhisperAPI.TestConnection | frontend/src/js/api.js:36-79 | the nested loops over candidates and attempts produce the connection test's outcome, trace and new health URL, with the base URL rewritten as line 65 writes it |
| WhisperApi.WhisperAPI.Request | frontend/src/js/api.js:84-153 | a request tests the connection when not memoised, then sends; state, result and trace are those of the request specification |
| WhisperApi.WhisperAPI.Send | frontend/src/js/api.js:93-152 | the request proper: a cache hit for GET, else one fetch and its classified failure or its result, cached for GET |
| WhisperApi.WhisperAPI.TranscribeAudio | frontend/src/js/api.js:186-214 | transcription is a POST of the form to `/transcribe` and leaves the cache unchanged |
| WhisperApi.TranslateSendsOnlyPresentText | frontend/src/js/api.js:242-258 | an `undefined` or `null` text fails with `Cannot read properties of … (reading 'length')`, sends nothing and keeps the client's state; any other text, on success, was POSTed last to `/translate` with the target; the cache is never touched |
| WhisperApi.WhisperAPI.TranslateText | frontend/src/js/api.js:242-258 | `translateText` reads `text.length` first and then POSTs the JSON body: its result, trace and state are `TranslateSpec`'s, and the cache is unchanged |
| WhisperApi.WhisperAPI.CheckHealth | frontend/src/js/api.js:158-181 | the health URL is fetched first; an OK JSON reply is returned with no state change; any failure runs the connection test and reports `Backend service is not accessible.` or `Backend health check failed: <message>` |
| WhisperApi.TwoGetsFetchOnce | frontend/src/js/api.js:84-153 | on a fresh client that can connect, a second GET of an endpoint returns the first answer with no effect at all |
| Http.Prop | frontend/src/js/app.js:370-375 | a JavaScript property read throws exactly when reading through `undefined` or `null`; otherwise it gives the object's field when there is one, agreeing with `Field`, and `undefined` when not |
| Http.ReadPathOfReply | frontend/src/js/app.js:370 | `reply.result.text` throws `… of null (reading 'result')` for a `null` reply, `… of undefined (reading 'text')` without `result`, `… of null (reading 'text')` for a `null` one; it succeeds exactly when `result` is present and not `null`, giving its `text` or `undefined` |
| App.TwoStepResult | frontend/src/js/app.js:372-378 | the two-step result keeps every other field of the transcription record, with `text` = the translation, `original_text` = the transcribed text (each absent when `undefined`), `target_language` = the target and `task` = `translate` |
| App.TextOf | frontend/src/js/app.js:425 | a non-empty transcript is the result's truthy `text` string |
| App.ShowResultsSetsTranscript | frontend/src/js/app.js:423-458 | `showResults` sets the transcript to the result's text, shows the result, hides progress, changes nothing else in the state, and shows the speak button exactly when speech is available and there is text (never hiding it) |
| App.FailSpec | frontend/src/js/app.js:392-395 | a failure appends `Transcription failed: <message>`, hides progress, and keeps the shown result and the progress trace |
| App.WhisperTask | frontend/src/js/app.js:385 | `whisper_translate` maps to the Whisper task `translate`; any other task to `transcribe` |
| App.BusyPage | frontend/src/js/app.js:353-362 | starting a run reports progress 0 and keeps the errors, the shown result and the selections |
| App.Release | frontend/src/js/app.js:396-399 | the `finally` clears `isProcessing` and enables the button, leaving errors, progress, result and requests alone |
| App.StartGuard | frontend/src/js/app.js:351 | without a current file, or while a run is in progress, `startTranscription` changes nothing and sends nothing |
| App.StartAlwaysReleases | frontend/src/js/app.js:353-399 | a run that starts always ends with `isProcessing` false and the button enabled, on success and on failure, with the file, the audio id and the speech availability untouched |
| App.StartFailsShowsOrEscapes | frontend/src/js/app.js:357-399 | every run either shows a result and sets the transcript from it; or adds exactly one `Transcription failed: …` error, hides progress, shows nothing new and keeps the previous transcript; or, only for a direct task whose reply is `null`, records the timer's uncaught `Cannot read properties of null (reading 'result')` with no error, nothing shown and progress still visible |
| App.FailKeepsState | frontend/src/js/app.js:392-395 | a failure adds exactly one `Transcription failed: …` message, keeps the shown result and the uncaught errors, and hides progress |
| App.ShowKeepsErrors | frontend/src/js/app.js:423-458 | showing a result adds no error and changes only the transcript in the state |
| App.OutcomeSettles | frontend/src/js/app.js:364-395 | both branches of the run end in one of the three ways: a result shown, exactly one failure message added, or the `null`-reply error thrown outside the run |
| App.TwoStepFailsOrShows | frontend/src/js/app.js:364-381 | the two-step branch either shows a result or adds exactly one failure message; nothing it throws escapes the `catch` |
| App.TranslationFailsOrShows | frontend/src/js/app.js:369-381 | the translation step either shows the combined result or adds exactly one failure message, and nothing escapes |
| App.DirectFailsShowsOrEscapes | frontend/src/js/app.js:383-390 | the direct branch shows a result, adds exactly one failure message, or records the timer's uncaught error for a `null` reply |
| App.TwoStepSummary | frontend/src/js/app.js:364-381 | a successful two-step run read `result.text` and `result.translated_text`, reported 25, 50, 100 and shows the combined record; a failed one stopped at 25 when the transcription request failed and at 50 after it returned; an unreadable transcription sent nothing more |
| App.TranslationSummary | frontend/src/js/app.js:369-381 | a successful translation step read `result.translated_text`, reported 100 and shows the combined record; a failed one reported nothing more |
| App.DirectSummary | frontend/src/js/app.js:383-390 | an error is shown exactly when the request failed, and then progress is unchanged; otherwise 100 is reported; a `null` reply records `Cannot read properties of null (reading 'result')` as uncaught and changes nothing else |
| App.TranslateProgress | frontend/src/js/app.js:362-380 | task `translate` reports 0, 25, 50, 100 on success; a failure stops at 0, 25 when the transcription request failed and at 0, 25, 50 otherwise |
| App.DirectProgress | frontend/src/js/app.js:362-388 | any other task reports 0 then 100 whenever its request returned, the `null` reply included, and only 0, with an error, when it failed |
| App.TwoStepShowsTranslation | frontend/src/js/app.js:367-378 | a successful two-step run shows the translation as `text`, the transcribed text as `original_text`, the selected target and the task `translate` |
| App.TwoStepFeedsTranslation | frontend/src/js/app.js:364-378 | task `translate` first asks Whisper only to transcribe, and its last request posts the transcribed text to `/translate` with the selected target |
| App.MissingTextStopsBeforeTranslation | frontend/src/js/app.js:364-370 | when the transcription returned without a readable, non-`null` `result.text`, the run fails at 0, 25, 50 with a `Cannot read properties of …` message and sends nothing to `/translate` |
| App.MissingTextFails | frontend/src/js/api.js:242-245 | the same for the two-step outcome: the failure comes from reading `result.text` or from `translateText`'s read of `text.length`, before any request |
| App.DirectSendsWhisperTask | frontend/src/js/app.js:383-386 | any other task sends one transcription request whose form carries task `translate` and the target exactly when `whisper_translate` was selected |
| App.ViolationLines | frontend/src/js/app.js:278-280 | one message line per validation error, in order |
| App.FileSelectKeepsOrReplaces | frontend/src/js/app.js:275-287 | an invalid file shows one error listing every violation and keeps the current file; a valid file, one within 50 MiB with an accepted type, becomes the current file |
| App.RemovedFileCannotStart | frontend/src/js/app.js:328-351 | after the file is removed, `startTranscription` does nothing |
| App.TaskChangeSpec | frontend/src/js/app.js:511-520 | the target group is shown exactly for `translate` and `whisper_translate`, and `whisper_translate` sets the target to `en` |
| App.WhisperTranslateAsksEnglish | frontend/src/js/app.js:511-519 | after choosing `whisper_translate`, the next transcription form asks for the target `en` |
| App.UnavailableSpeechHidesButton | frontend/src/js/app.js:538-543 | when speech is unavailable the speak button is hidden and no later result shows it |
| App.SpeechReplySetsIdOrFails | frontend/src/js/app.js:562-572 | a synthesis reply with a record sets `currentAudioId` to `audio_id || id` and shows the section; any failure adds one `TTS failed: …` error and changes nothing else |
| App.SpeakNeedsTranscript | frontend/src/js/app.js:553-556 | an empty transcript only shows `No transcript to speak`: nothing is synthesised |
| App.SpeakSynthesisesTranscript | frontend/src/js/app.js:558-572 | with a transcript, the speech client's own id is never set, so its cleanup sends nothing and the one request synthesises the transcript; the application's audio id changes only on success |
| App.ClearHidesAndClearsOnSuccess | frontend/src/js/app.js:609-624 | `clearTTSAudio` always hides the section; with an id it sends one DELETE and clears the id only when that call succeeded |
| App.ResetThenSpeakFails | frontend/src/js/app.js:494-506 | after a reset there is no file and no transcript, so speaking only shows `No transcript to speak` |
| App.WhisperApp.constructor | frontend/src/js/app.js:10-32 | the initial state has no file, no run in progress, an empty transcript, no audio id and speech unavailable, with fresh API, speech and audio objects |
| App.WhisperApp.ShowResults | frontend/src/js/app.js:423-458 | the state part of `showResults` |
| App.WhisperApp.Fail | frontend/src/js/app.js:392-395 | the `catch` of `startTranscription` |
| App.WhisperApp.TwoStep | frontend/src/js/app.js:364-381 | the transcribe-then-translate branch against the API client: 25, the transcription, 50, the read of `result.text`, then the translation step |
| App.WhisperApp.Translate | frontend/src/js/app.js:369-381 | the `translateText` call, the read of `result.translated_text`, and the combined result shown at 100 |
| App.WhisperApp.Direct | frontend/src/js/app.js:383-390 | the direct Whisper branch: one request, 100, and `result.result \|\| result` shown, or the timer's uncaught error for a `null` reply |
| App.WhisperApp.StartTranscription | frontend/src/js/app.js:350-400 | `startTranscription` with its guard, its busy flag, the two branches and the `finally` |
| App.WhisperApp.HandleFileSelect | frontend/src/js/app.js:275-287 | `handleFileSelect`: validation through the audio handler, then keep or replace the current file |
| App.WhisperApp.RemoveCurrentFile | frontend/src/js/app.js:328-345 | the file is cleared and the options hidden |
| App.WhisperApp.ResetApp | frontend/src/js/app.js:494-506 | the reset clears file and transcript and hides the result parts, and runs the speech client's cleanup |
| App.WhisperApp.HandleTaskChange | frontend/src/js/app.js:511-520 | the task choice toggles the target group and forces `en` for Whisper's own translation |
| App.WhisperApp.InitializeTTS | frontend/src/js/app.js:525-550 | availability is the speech health check's answer; one GET of `<tts>/health` is sent |
| App.WhisperApp.SpeakTranscript | frontend/src/js/app.js:552-573 | `speakTranscript`: the guard, the speech client's cleanup, the synthesis and the new audio id |
| App.WhisperApp.ClearTTSAudio | frontend/src/js/app.js:609-624 | `clearTTSAudio`: the cleanup call and the section hidden whatever its outcome |
| TtsClient.ChooseBaseUrl | frontend/src/js/services/TTSService.js:3-12 | an explicit non-empty URL wins; otherwise a loopback hostname gives `http://<host>:7000`, and any other host `http://tts-service:7000` |
| TtsClient.JsonOf | frontend/src/js/services/TTSService.js:57-76 | a rejected fetch fails with its message, a non-OK status with the status message; the result is the JSON body exactly when the response is OK and its body parses |
| TtsClient.AnyStatus | frontend/src/js/services/TTSService.js:94-104 | the cleanup call succeeds exactly when a response came back whose body parses, whatever its status |
| TtsClient.CleanupWithoutId | frontend/src/js/services/TTSService.js:36-37 | without a truthy id, `cleanupCurrent` sends nothing and changes nothing |
| TtsClient.CleanupClearsOnlyOnSuccess | frontend/src/js/services/TTSService.js:36-45 | with an id, exactly one DELETE for it is sent; the id is cleared exactly when the cleanup call returned, and otherwise kept |
| TtsClient.CleanupCurrentSettles | frontend/src/js/services/TTSService.js:36-45 | after a cleanup that cleared the id, another `cleanupCurrent` sends nothing |
| TtsClient.SynthesisBody | frontend/src/js/services/TTSService.js:64 | the body carries the text and the voice, `null` when none is given |
| TtsClient.TTSService.constructor | frontend/src/js/services/TTSService.js:3-16 | the base URL is the chosen one and `currentAudioId` starts null |
| TtsClient.TTSService.TestConnection | frontend/src/js/services/TTSService.js:18-30 | one GET of `<base>/health`; available exactly when the response is OK, false on any rejection |
| TtsClient.TTSService.SynthesizeText | frontend/src/js/services/TTSService.js:57-76 | one JSON POST to `<base>/synthesize`; a non-OK status throws `HTTP error! status: <n>`; the object's fields are not touched |
| TtsClient.TTSService.Synthesize | frontend/src/js/services/TTSService.js:32-34 | `synthesize` is `synthesizeText` and, like it, never sets `currentAudioId` |
| TtsClient.TTSService.DownloadUrl | frontend/src/js/services/TTSService.js:78-80 | the URL is the base followed by `/download/<id>` |
| TtsClient.TTSService.Cleanup | frontend/src/js/services/TTSService.js:94-104 | one DELETE of `<base>/cleanup/<id>`, whose JSON body is returned whatever the status |
| TtsClient.TTSService.CleanupCurrent | frontend/src/js/services/TTSService.js:36-45 | the id is cleared only after a cleanup that returned; a failure is swallowed and keeps the id |
| TtsSimpleClient.SynthesisBody | frontend/src/js/tts.js:25 | the body carries the text and the voice |
| TtsSimpleClient.SynthesisRequest | frontend/src/js/tts.js:21-27 | `synthesize` posts to `http://localhost:7000/synthesize` a body whose text is the input trimmed |
| TtsSimpleClient.SynthesizeSetsIdOnlyOnSuccess | frontend/src/js/tts.js:29-35 | a non-OK response throws `TTS failed: <status>`; any failure, a `null` reply included, leaves `currentAudioId` unchanged, and success sets it to `audio_id \|\| id` |
| TtsSimpleClient.SynthesisSendsStrippedText | frontend/src/js/tts.js:25 | the text sent has no surrounding whitespace, and inputs that differ only by surrounding whitespace send the same request |
| TtsSimpleClient.CleanupAlwaysClears | frontend/src/js/tts.js:53-65 | without an id nothing happens; with one, one DELETE for it is sent and the id always ends null, whatever the DELETE did |
| TtsSimpleClient.TTSService.constructor | frontend/src/js/tts.js:5-8 | `currentAudioId` starts null |
| TtsSimpleClient.TTSService.TestConnection | frontend/src/js/tts.js:10-19 | one GET of the health URL; true exactly when the response is OK, false on any error or timeout |
| TtsSimpleClient.TTSService.Synthesize | frontend/src/js/tts.js:21-36 | `synthesize` against the specification: request, result and new id |
| TtsSimpleClient.TTSService.CleanupCurrent | frontend/src/js/tts.js:53-65 | `cleanupCurrent` against the specification: the DELETE's outcome is ignored and the id cleared |
| LanguageConfig.LanguageCodesAreKeys | frontend/src/js/config/LanguageConfig.js:2-58 | `LANGUAGE_CODES` lists the 46 codes of `LANGUAGES` in declaration order, and a code has an entry exactly when it is listed |
| LanguageConfig.DisplayNameOf | frontend/src/js/config/LanguageConfig.js:61-75 | without an entry the code is shown upper-cased, whatever the format; an unrecognised format yields the name |
| LanguageConfig.UnknownCodeUpperCased | frontend/src/js/config/LanguageConfig.js:62-63 | a code outside `LANGUAGE_CODES` is shown as `code.toUpperCase()` for every format |
| LanguageConfig.CompositeFormats | frontend/src/js/config/LanguageConfig.js:69-72 | for a known code, `flag-name` is `flag name`, `flag-code` is `flag CODE`, and `full` is `flag name (native)` |
| LanguageConfig.CompositeFormatsOf | frontend/src/js/config/LanguageConfig.js:69-72 | the same three compositions for any entry |
| LanguageConfig.NameNativeCollapses | frontend/src/js/config/LanguageConfig.js:71 | `name-native` is the plain name exactly when the native name equals it, and `name (native)` otherwise |
| LanguageConfig.UnrecognisedFormatIsName | frontend/src/js/config/LanguageConfig.js:61-73 | any format outside the switch gives the same text as the default format `name` |
| LanguageConfig.CategoryCodes | frontend/src/js/config/LanguageConfig.js:78-84 | a name that is not a category lists no codes |
| LanguageConfig.PopularKnown | frontend/src/js/config/LanguageConfig.js:79 | every `popular` code is a key of `LANGUAGES` |
| LanguageConfig.EuropeanKnown | frontend/src/js/config/LanguageConfig.js:80 | every `european` code is a key of `LANGUAGES` |
| LanguageConfig.AsianKnown | frontend/src/js/config/LanguageConfig.js:81 | every `asian` code is a key of `LANGUAGES` |
| LanguageConfig.AfricanKnown | frontend/src/js/config/LanguageConfig.js:82 | the `african` code is a key of `LANGUAGES` |
| LanguageConfig.AmericasKnown | frontend/src/js/config/LanguageConfig.js:83 | every `americas` code is a key of `LANGUAGES` |
| LanguageConfig.CategoriesListKnownCodes | frontend/src/js/config/LanguageConfig.js:78-84 | every code listed in any category is a key of `LANGUAGES` and has an entry |
| TtsLanguageSupport.TtsOnly | frontend/src/js/language-config.js:53 | the filter keeps exactly the rows whose `tts` is true |
| TtsLanguageSupport.SupportedLanguages | frontend/src/js/language-config.js:50-54 | with `include_tts_only` the result holds exactly the rows with `tts` true; without it, the whole table |
| TtsLanguageSupport.TtsOnlyKeepsSpeakingTable | frontend/src/js/language-config.js:53 | a table whose every row has TTS is returned whole by the filter |
| TtsLanguageSupport.EveryLanguageSpeaks | frontend/src/js/language-config.js:4-54 | every one of the 38 rows has TTS, so `include_tts_only=True` returns the same table |
| TtsLanguageSupport.TierSpeaks | frontend/src/js/language-config.js:4-48 | each tier's rows all have TTS |
| TtsLanguageSupport.ValidateLanguageSupport | frontend/src/js/language-config.js:56-68 | the check either returns true or raises |
| TtsLanguageSupport.ValidationDecides | frontend/src/js/language-config.js:56-68 | the empty code is always valid; any other code is valid exactly when it has a row with TTS where TTS is required; a missing row raises `Language X not supported` before the TTS check raises `TTS not supported for language X` |
| TtsLanguageSupport.ChooseVoice | frontend/src/js/language-config.js:89-90 | a requested voice the language has is kept; otherwise the language's first voice is used (an `IndexError` when it has none) |
| TtsLanguageSupport.TextToSpeechPlans | frontend/src/js/language-config.js:84-96 | a speech plan is made exactly for a language with a row, TTS and voices; its voice is one the language has, the requested one when available, and the neural generator is chosen exactly when the tier is premium and the voice is `neural` |
| TtsLanguageSupport.QualityIgnored | frontend/src/js/language-config.js:76-96 | the `quality` form field never changes what `/tts` does |
| TtsLanguageSupport.EmptyLanguageFailsLookup | frontend/src/js/language-config.js:58-86 | an empty language passes validation as auto-detect and then raises `KeyError('')` at the table lookup |
| TtsLanguageSupport.CountQuality | frontend/src/js/language-config.js:124-126 | a tier count is at most the table size |
| TtsLanguageSupport.CountTts | frontend/src/js/language-config.js:122 | the TTS count is the number of rows the TTS filter keeps |
| TtsLanguageSupport.Matrix | frontend/src/js/language-config.js:104-128 | the matrix has one row per language, in table order, each with `whisper_support` true and the language's TTS flag, quality and voices; `total_languages` is the table size |
| TtsLanguageSupport.TierCountsSum | frontend/src/js/language-config.js:121-127 | when every row's quality is one of the three tiers, the tier counts sum to the total |
| TtsLanguageSupport.UniformTierCounts | frontend/src/js/language-config.js:124-126 | a tier whose rows share one quality counts fully under it and not under another |
| TtsLanguageSupport.CountQualityAppend | frontend/src/js/language-config.js:124-126 | the count over two tables in sequence is the sum of their counts |
| TtsLanguageSupport.MatrixCounts | frontend/src/js/language-config.js:121-127 | the endpoint reports 38 languages, all with TTS, split 10 premium, 10 high and 18 standard, and the tier counts sum to the total |
| TtsLanguageSupport.QualityCounts | frontend/src/js/language-config.js:124-126 | the table holds 10 premium, 10 high and 18 standard rows |
| TtsLanguageSupport.PremiumCount | frontend/src/js/language-config.js:124 | the table holds 10 premium rows |
| TtsLanguageSupport.HighCount | frontend/src/js/language-config.js:125 | the table holds 10 high rows |
| TtsLanguageSupport.StandardCount | frontend/src/js/language-config.js:126 | the table holds 18 standard rows |
| TtsLanguageSupport.PremiumTierCounts | frontend/src/js/language-config.js:5-16 | the premium tier has 10 rows, all premium |
| TtsLanguageSupport.HighTierCounts | frontend/src/js/language-config.js:17-28 | the high tier has 10 rows, all high |
| TtsLanguageSupport.StandardTierCounts | frontend/src/js/language-config.js:29-48 | the standard tier has 18 rows, all standard |
| TtsLanguageSupport.TierQualities | frontend/src/js/language-config.js:4-48 | each tier's rows carry that tier's quality |
| TtsLanguageSupport.ThreeTiers | frontend/src/js/language-config.js:4-48 | a quality count over the whole table is the sum of the counts over the three tiers |
| TtsLanguageSupport.TierCount | frontend/src/js/language-config.js:124-126 | a tier of one quality counts fully under it and not under the other two |
| Strings.Lower | frontend/src/js/audio.js:153 | lower-casing keeps the length and maps each character on its own |
| Strings.Upper | frontend/src/js/config/LanguageConfig.js:63 | upper-casing keeps the length and maps each character on its own |
| Strings.Strip | translation-service/translation_service.py:266 | the stripped text neither starts nor ends with Python whitespace |
| Strings.Trim | frontend/src/js/tts.js:25 | the trimmed text neither starts nor ends with JavaScript whitespace |
| Strings.TrimIdempotent | frontend/src/js/tts.js:25 | trimming twice is trimming once |
| Strings.StripRemovesSeparators | tts-service/app.py:87 | every character `trim()` removes `strip()` removes too; a separator from U+001C to U+001F alone strips to nothing in Python but survives `trim()` |
| Strings.TrimStart | translation-service/translation_service.py:266 | only leading whitespace is removed, and all of it |
| Strings.TrimEnd | translation-service/translation_service.py:266 | only trailing whitespace is removed, and all of it |
| Strings.StripIdempotent | translation-service/translation_service.py:266 | stripping twice is stripping once |
| Strings.LowerStripCommute | translation-service/translation_service.py:266 | lower-casing and stripping can be applied in either order |
| Strings.NatToString | frontend/src/js/audio.js:177-179 | a rendered number is a non-empty run of digits, one digit exactly for numbers below 10 |
| Strings.ParseNatToString | frontend/src/js/audio.js:177-179 | reading back a rendered number gives the number |
| Http.StrList | backend/src/services/whisper_service.py:94-95 | a list of strings becomes a JSON list of the same strings, in order |
| Http.AudioIdOf | frontend/src/js/app.js:563 | `result.audio_id \|\| result.id`: a non-empty `audio_id` string wins, else the `id` string when there is one |
| Http.ReadError | frontend/src/js/app.js:370 | reading a property of a missing value fails with a `Cannot read properties of …` message |
| Strings.CaseChar | frontend/src/js/audio.js:153 | an ASCII letter moves to the other case at the same position in the alphabet; every other character is kept |

## Left out

- Strings.Lower: ASCII case mapping only; JavaScript's and Python's Unicode case tables are not modelled.
- Strings.Upper: ASCII case mapping only, for the same reason.
- Strings.Strip: only ASCII whitespace counts, including the separators U+001C to U+001F that Python's `str.isspace` accepts; Python's `str.strip` also removes non-ASCII whitespace.
- Strings.Trim: only ASCII whitespace counts; JavaScript's `trim()` (`tts.js` line 25) also removes non-ASCII spaces.
- TtsSimpleClient.SynthesisRequest: the text is trimmed by `Strings.Trim`, so the non-ASCII spaces that `text.trim()` removes are kept.
- WhisperApi.HttpErrorMessage: an `error` field that is truthy but not a string is treated as absent, because the model does not render arbitrary JSON values as text.
- Http.AudioIdOf: only string ids are modelled; a numeric `audio_id` or `id` reads as absent.
- App.TextOf: a truthy `text` that is not a string reads as the empty text, because the model does not render arbitrary JSON values as text.
- App.WhisperApp.StartTranscription: the 500 ms `setTimeout` before `showResults` is not modelled as a delay. Its callback runs at once, so in the model it precedes the `finally` block, which the source runs first; an error it throws is recorded in `Page.uncaught` and does not reach the `catch`, as in the source.
- App.TwoStepResult: spreading a transcription `result` that is a string or an array would copy its characters or items under index keys; the model spreads only objects and adds nothing for other values.
- Http.Prop: strings and arrays are taken to have none of the properties the client reads by name; for `length` only whether the read throws is used.
- The second click listener that `app.js` attaches to the speak button is left out. The two handlers run concurrently, and concurrency is not modelled.
- DOM rendering, `LanguageSelect`, the progress and notification managers, and `loadInitialData` (`app.js` lines 192-240) are left out: they display data and decide nothing.
- `getLanguages`, `getTranslationLanguages` and `getModelInfo` in `api.js` are plain GET requests; they are covered by `WhisperApi.WhisperAPI.Request` and have no members of their own.
- The module-level helper functions of `api.js` (lines 266-426) are left out; the classes do not use them.
- `formatFileSize` and `getAudioMetadata` in `audio.js` are left out: they rely on floating point and on the browser's media decoding.
- Timers, sleeps and request timeouts become `Wait` effects or counts; durations and timeouts expiring are not modelled.
- Transcription confidence and segment timings are opaque JSON values; their floating-point arithmetic is not modelled.
- Whisper results that lack `text` are not modelled; the library is assumed to return one. A missing `language` gives `unknown` and missing `segments` give an empty list, as in the source.
- The SSL monkey-patching in `_load_translator` of the standalone translation service is left out; whether the translator loaded is a flag.
- The Whisper, Google Translate, gTTS and Coqui libraries are oracle functions; their output is not modelled.
- Saving and deleting temporary uploads, and `tempfile.mkdtemp`, are not part of this model; the file system is a set of existing paths where it matters.
- The root `/` informational endpoints, the TTS service's `/voices`, and the backend's 413, 400 and 500 error handlers are left out: they return fixed documents.
- The `except` branches of `/health` and `/model-info` in `backend/src/app.py` are left out: they catch exceptions from logging and dictionary building, which the model cannot raise.
- The outer `except` of the backend's translation-languages route, which falls back to a fixed list of five codes, is left out for the same reason.
- `supported_formats` lists `ALLOWED_EXTENSIONS`, a Python set, whose order is not defined; the model fixes one order.
- Flask's own errors from `request.get_json` on a malformed body are not modelled; a missing or unreadable body is `JNull`.
- `secure_filename`, `os.getpid` and `uuid4` are parameters.
- Keys inherited from `Object.prototype` (such as `toString`) in the `LanguageConfig.js` lookups are not modelled; lookups see only the table's own keys.
- `generate_token` and `init_auth` in `utils/auth.py` are left out; token decoding (`jwt.decode`) is an oracle.
- Logging and CORS headers are left out.
- `tests/test_translation.py` and `start_server.py` are left out: they are tests and a launcher, not service logic.
- The defaults of `transcribeAudio` (language `''`, task `transcribe`, target `en`) are not modelled as defaults; callers pass every argument.

## Findings

| source | as written | input that shows it | evidently intended | confidence | as-written member | corrected member |
|---|---|---|---|---|---|---|
| frontend/src/js/api.js:65 | `url.replace('/health', '/api/v1')` rewrites the first occurrence of `/health` in the whole URL | a host whose name starts with `health`, e.g. `health.lan`: `http://health.lan:5000/health` becomes `http://api/v1.lan:5000/health` | replace the trailing `/health` path, giving `http://<host>:5000/api/v1` | not executed | WhisperApi.ApiBaseAsWrittenMisrewrites | WhisperApi.ApiBaseOfHealthUrl |

The client model (`WhisperApi.TestConnectionSpec` and `WhisperApi.WhisperAPI.TestConnection`) keeps line 65 as written. `WhisperApi.ApiBaseFor` is the corrected rewrite, kept as the reference. `WhisperApi.ApiBaseAsWrittenOnPlainOrigin` proves that the two agree whenever the origin contains no `/health` of its own.
