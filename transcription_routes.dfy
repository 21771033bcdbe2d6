/**
 * The backend's transcription blueprint (`routes/transcription.py`): the
 * upload extension check and the early-return ladders of its handlers.
 *
 * A handler is a function from the request (form fields, or the decoded
 * JSON body with `JNull` for none) and the services' availability to the
 * reply. The services' calls are oracles giving a value or the exception
 * raised; `secure_filename` is a parameter. Saving and deleting the
 * temporary upload is not part of this model.
 */
module TranscriptionRoutes {
  import opened Wrappers
  import opened Strings
  import opened Http
  import opened TranslationErrors
  import opened Handlers
  import Audio

  /** `ALLOWED_EXTENSIONS`, listed in the order of its declaration. */
  const AllowedExtensions: seq<string> := ["mp3", "wav", "mp4", "m4a", "ogg", "flac", "webm"]

  /** The tasks `/transcribe` accepts. */
  const Tasks: seq<string> := ["transcribe", "translate"]

  /** The codes `/languages` lists without a Whisper service. */
  const WhisperFallback: seq<string> := ["en", "es", "fr", "de", "it", "ja", "ko", "zh"]

  /** The codes `/translation-languages` lists without a translation service. */
  const TranslationFallback: seq<string> := ["en", "es", "fr", "de", "it", "ja", "ko", "zh", "ar", "hi"]

  // ------------------------------------------------------------ extension

  /** `allowed_file(filename)`: a dot, and the lower-cased text after the last one is an allowed extension. */
  predicate AllowedFile(filename: string) {
    '.' in filename && Lower(filename[LastIndexOf(filename, '.') + 1..]) in AllowedExtensions
  }

  /** Only the suffix after the last dot decides, in any letter case. */
  lemma AllowedSuffix(stem: string, suffix: string)
    requires '.' !in suffix
    ensures AllowedFile(stem + "." + suffix) <==> Lower(suffix) in AllowedExtensions
  {
    var name := stem + "." + suffix;
    LastIndexOfSuffix(stem, '.', suffix);
    assert name[|stem| + 1..] == suffix;
  }

  /** The browser's extensions are the server's, each with a leading dot. */
  lemma DottedExtensions(x: string)
    ensures x in AllowedExtensions <==> "." + x in Audio.SupportedExtensions
  {
    forall k | 0 <= k < |AllowedExtensions|
      ensures Audio.SupportedExtensions[k] == "." + AllowedExtensions[k]
    {
    }
    if "." + x in Audio.SupportedExtensions {
      var k :| 0 <= k < |Audio.SupportedExtensions| && Audio.SupportedExtensions[k] == "." + x;
      assert x == ("." + x)[1..];
      assert ("." + AllowedExtensions[k])[1..] == AllowedExtensions[k];
    }
  }

  /** The server's check accepts exactly the names the browser's `isValidExtension` accepts. */
  lemma AllowedFileMatchesBrowser(filename: string)
    ensures AllowedFile(filename) <==> Audio.IsValidExtension(filename)
  {
    if '.' in filename {
      var ext := Audio.Extension(filename);
      var after := Lower(filename[LastIndexOf(filename, '.') + 1..]);
      assert ext == "." + after;
      DottedExtensions(after);
    } else {
      Audio.NoDotNoExtension(filename);
    }
  }

  // -------------------------------------------------------------- replies

  /** The 503 reply for a service that is absent. */
  function Unavailable(service: string, detail: string): (r: Reply)
    ensures IsError(r, 503, service + " not available")
    ensures "message" in r.body && r.body["message"] == JStr(detail)
  {
    JsonReply(503, map["message" := JStr(detail), "error" := JStr(service + " not available")])
  }

  // ----------------------------------------------------------- transcribe

  /** The multipart request: the `audio` file if sent, and the `language` and `task` form fields. */
  datatype TranscribeForm = TranscribeForm(audio: Option<UploadFile>, language: Option<string>, task: Option<string>)

  /** The arguments `whisper_service.transcribe_audio` receives. */
  datatype TranscribeCall = TranscribeCall(language: Option<string>, task: string)

  /** `request.form.get('task', 'transcribe')`. */
  function TaskOf(form: TranscribeForm): (task: string)
    ensures form.task.None? ==> task == "transcribe"
    ensures form.task.Some? ==> task == form.task.value
  {
    form.task.GetOr("transcribe")
  }

  /** The form passes every check of `/transcribe`. */
  predicate TranscribeAccepted(form: TranscribeForm) {
    form.audio.Some? && form.audio.value.name != [] && AllowedFile(form.audio.value.name) && TaskOf(form) in Tasks
  }

  /** `POST /transcribe`. */
  function Transcribe(available: bool, form: TranscribeForm, secureFilename: string -> string,
                      transcribe: TranscribeCall -> Outcome<map<string, J>>): (r: Reply)
    ensures r.JsonReply?
    ensures r.status == 503 <==> !available
    ensures r.status == 400 <==> available && !TranscribeAccepted(form)
    ensures r.status == 200 <==> (
      available && TranscribeAccepted(form) &&
      transcribe(TranscribeCall(form.language, TaskOf(form))).Returned?)
    ensures r.status == 200 ==>
      "result" in r.body && "filename" in r.body &&
      r.body["result"] == JObj(transcribe(TranscribeCall(form.language, TaskOf(form))).value) &&
      r.body["filename"] == JStr(secureFilename(form.audio.value.name))
  {
    if !available then
      Unavailable("Whisper service", "The Whisper model is still loading or failed to initialize")
    else if form.audio.None? then ErrorReply(400, "No audio file provided")
    else if form.audio.value.name == [] then ErrorReply(400, "No file selected")
    else if !AllowedFile(form.audio.value.name) then
      JsonReply(400, map["supported_formats" := StrList(AllowedExtensions), "error" := JStr("File type not supported")])
    else
      var task := TaskOf(form);
      if task !in Tasks then ErrorReply(400, "Task must be either \"transcribe\" or \"translate\"")
      else
        var filename := secureFilename(form.audio.value.name);
        match transcribe(TranscribeCall(form.language, task))
        case Raised(e) => Failure(e)
        case Returned(result) => Success(map["result" := JObj(result), "filename" := JStr(filename)])
  }

  /**
   * The rejections come in order: the missing file, the empty name, the
   * extension (listing the allowed ones), then the task; a failing
   * transcription gives 500 with its message.
   */
  lemma TranscribeRejections(form: TranscribeForm, secureFilename: string -> string,
                             transcribe: TranscribeCall -> Outcome<map<string, J>>)
    ensures var r := Transcribe(true, form, secureFilename, transcribe);
      (form.audio.None? ==> IsError(r, 400, "No audio file provided")) &&
      (form.audio.Some? && form.audio.value.name == [] ==> IsError(r, 400, "No file selected")) &&
      (form.audio.Some? && form.audio.value.name != [] && !AllowedFile(form.audio.value.name) ==>
        IsError(r, 400, "File type not supported") && r.body["supported_formats"] == StrList(AllowedExtensions)) &&
      (form.audio.Some? && form.audio.value.name != [] && AllowedFile(form.audio.value.name) && TaskOf(form) !in Tasks ==>
        IsError(r, 400, "Task must be either \"transcribe\" or \"translate\"")) &&
      (TranscribeAccepted(form) && transcribe(TranscribeCall(form.language, TaskOf(form))).Raised? ==>
        IsError(r, 500, transcribe(TranscribeCall(form.language, TaskOf(form))).error.message))
  {
  }

  /** Without a `task` field the upload is transcribed, not translated. */
  lemma TaskDefaultsToTranscribe(file: UploadFile, language: Option<string>, secureFilename: string -> string,
                                 transcribe: TranscribeCall -> Outcome<map<string, J>>)
    requires file.name != [] && AllowedFile(file.name)
    ensures var r := Transcribe(true, TranscribeForm(Some(file), language, None), secureFilename, transcribe);
      r.status == 200 <==> transcribe(TranscribeCall(language, "transcribe")).Returned?
  {
  }

  // -------------------------------------------------------------- listing

  /** `GET /languages`: the service's list, or the fixed 8 codes with a note. */
  function Languages(available: bool, languages: Outcome<seq<string>>): (r: Reply)
    ensures r.JsonReply?
    ensures !available ==> r == Success(map["languages" := StrList(WhisperFallback),
                                            "note" := JStr("Whisper service not loaded, showing limited language list")])
    ensures available && languages.Returned? ==> r == Success(map["languages" := StrList(languages.value)])
    ensures available && languages.Raised? ==> IsError(r, 500, languages.error.message)
  {
    if !available then
      Success(map["languages" := StrList(WhisperFallback),
                  "note" := JStr("Whisper service not loaded, showing limited language list")])
    else match languages
      case Raised(e) => Failure(e)
      case Returned(codes) => Success(map["languages" := StrList(codes)])
  }

  /** `GET /model-info`: the service's info, or a `not_loaded` stand-in. */
  function ModelInfo(available: bool, info: Outcome<map<string, J>>): (r: Reply)
    ensures r.JsonReply? && (r.status == 200 <==> !available || info.Returned?)
    ensures !available ==> r == Success(map["model_info" :=
      JObj(map["status" := JStr("not_loaded"), "message" := JStr("Whisper service is not available")])])
    ensures available && info.Returned? ==> r == Success(map["model_info" := JObj(info.value)])
  {
    if !available then
      Success(map["model_info" := JObj(map["status" := JStr("not_loaded"),
                                          "message" := JStr("Whisper service is not available")])])
    else match info
      case Raised(e) => Failure(e)
      case Returned(value) => Success(map["model_info" := JObj(value)])
  }

  /** `GET /translation-languages`: the service's list, or the fixed 10 codes with a note. */
  function TranslationLanguages(available: bool, languages: Outcome<J>): (r: Reply)
    ensures r.JsonReply? && (r.status == 200 <==> !available || languages.Returned?)
    ensures !available ==> r == Success(map["languages" := StrList(TranslationFallback),
                                            "note" := JStr("Translation service not loaded, showing limited language list")])
    ensures available && languages.Returned? ==> r == Success(map["languages" := languages.value])
  {
    if !available then
      Success(map["languages" := StrList(TranslationFallback),
                  "note" := JStr("Translation service not loaded, showing limited language list")])
    else match languages
      case Raised(e) => Failure(e)
      case Returned(value) => Success(map["languages" := value])
  }

  // ------------------------------------------------------------ translate

  /** The arguments `translation_service.translate_text` receives, as found in the body. */
  datatype TranslateCall = TranslateCall(text: J, targetLanguage: J, sourceLanguage: J)

  /** `POST /translate`. */
  function Translate(available: bool, data: J, translate: TranslateCall -> Outcome<J>): (r: Reply)
    ensures r.JsonReply?
    ensures r.status == 503 <==> !available
    ensures r.status == 200 <==> (
      available && data.JObj? && data.fields != map[] &&
      PyTruthy(Field(data, "text")) && PyTruthy(Field(data, "target_language")) &&
      translate(TranslateCall(Field(data, "text"), Field(data, "target_language"), Field(data, "source_language"))).Returned?)
  {
    if !available then
      Unavailable("Translation service", "The translation service is not initialized")
    else if !PyTruthy(data) then ErrorReply(400, "No JSON data provided")
    else match GetField(data, "text")
      case Raised(e) => Failure(e)
      case Returned(text) =>
        var target := Field(data, "target_language");
        if !PyTruthy(text) then ErrorReply(400, "No text provided for translation")
        else if !PyTruthy(target) then ErrorReply(400, "Target language not specified")
        else match translate(TranslateCall(text, target, Field(data, "source_language")))
          case Raised(e) => Failure(e)
          case Returned(result) => Success(map["result" := result])
  }

  /**
   * Behind the availability check, `/translate` rejects an empty or missing
   * body, then a falsy text, then a falsy target; a body that is not an
   * object fails with the `AttributeError` of `data.get`, and a failing
   * translation gives 500 with its message.
   */
  lemma TranslateRejections(data: J, translate: TranslateCall -> Outcome<J>)
    ensures var r := Translate(true, data, translate);
      (!PyTruthy(data) ==> IsError(r, 400, "No JSON data provided")) &&
      (PyTruthy(data) && !data.JObj? ==> r.status == 500) &&
      (data.JObj? && data.fields != map[] && !PyTruthy(Field(data, "text")) ==>
        IsError(r, 400, "No text provided for translation")) &&
      (data.JObj? && data.fields != map[] && PyTruthy(Field(data, "text")) && !PyTruthy(Field(data, "target_language")) ==>
        IsError(r, 400, "Target language not specified"))
  {
  }

  /** `POST /detect-language`. */
  function DetectLanguage(available: bool, data: J, detect: J -> Outcome<J>): (r: Reply)
    ensures r.JsonReply?
    ensures r.status == 503 <==> !available
    ensures r.status == 200 <==> (
      available && data.JObj? && data.fields != map[] && PyTruthy(Field(data, "text")) &&
      detect(Field(data, "text")).Returned?)
  {
    if !available then
      Unavailable("Translation service", "The translation service is not initialized")
    else if !PyTruthy(data) then ErrorReply(400, "No JSON data provided")
    else match GetField(data, "text")
      case Raised(e) => Failure(e)
      case Returned(text) =>
        if !PyTruthy(text) then ErrorReply(400, "No text provided for language detection")
        else match detect(text)
          case Raised(e) => Failure(e)
          case Returned(result) => Success(map["result" := result])
  }

  /** `/detect-language` rejects a missing body, then a falsy text, and reports a failed detection as 500. */
  lemma DetectRejections(data: J, detect: J -> Outcome<J>)
    ensures var r := DetectLanguage(true, data, detect);
      (!PyTruthy(data) ==> IsError(r, 400, "No JSON data provided")) &&
      (data.JObj? && data.fields != map[] && !PyTruthy(Field(data, "text")) ==>
        IsError(r, 400, "No text provided for language detection")) &&
      (data.JObj? && data.fields != map[] && PyTruthy(Field(data, "text")) && detect(Field(data, "text")).Raised? ==>
        IsError(r, 500, detect(Field(data, "text")).error.message))
  {
  }
}
