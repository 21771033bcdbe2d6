/**
 * The backend's Whisper wrapper (`services/whisper_service.py`): the
 * `model`/`is_loading` flags set by `_load_model`, the status they report,
 * and how a transcription result is shaped into the response.
 *
 * `whisper.load_model` and `model.transcribe` are oracles; the file system
 * is the set of existing paths.
 */
module WhisperService {
  import opened Wrappers
  import opened Strings
  import opened Http
  import opened TranslationErrors

  /** A loaded Whisper model, known by the size it was loaded with. */
  datatype Model = Model(size: string)

  /** One segment of `model.transcribe`'s result. */
  datatype Segment = Segment(start: J, end: J, text: string)

  /** What `model.transcribe` returns: `text`, and `language` and `segments` when present. */
  datatype WhisperResult = WhisperResult(text: string, language: Option<string>, segments: Option<seq<Segment>>)

  /** The fixed list reported without a model. */
  const FallbackLanguages: seq<string> := ["en", "es", "fr", "de", "it", "pt", "ru", "ja", "ko", "zh", "ar", "hi"]

  /** `model_size or os.getenv('WHISPER_MODEL_SIZE', 'small')`. */
  function ChooseModelSize(requested: Option<string>, env: Option<string>): (size: string)
    ensures requested.Some? && requested.value != [] ==> size == requested.value
    ensures !(requested.Some? && requested.value != []) ==> size == (if env.Some? then env.value else "small")
  {
    if requested.Some? && requested.value != [] then requested.value
    else if env.Some? then env.value
    else "small"
  }

  /** `_load_model()`: the new `model` and `is_loading`. */
  function LoadSpec(model: Option<Model>, isLoading: bool, load: Outcome<Model>): (Option<Model>, bool)
  {
    if isLoading then (model, isLoading)
    else if load.Returned? then (Some(load.value), false)
    else (None, false)
  }

  /**
   * A load already in progress is left alone; otherwise the load always ends
   * with `is_loading` false, holding the model on success and `None` after
   * any failure.
   */
  lemma LoadSettles(model: Option<Model>, isLoading: bool, load: Outcome<Model>)
    ensures isLoading ==> LoadSpec(model, isLoading, load) == (model, true)
    ensures !isLoading ==> (
      !LoadSpec(model, isLoading, load).1 &&
      (LoadSpec(model, isLoading, load).0.Some? <==> load.Returned?) &&
      (load.Returned? ==> LoadSpec(model, isLoading, load).0 == Some(load.value)))
  {
  }

  /** `get_model_info()["status"]`. */
  function ModelStatus(model: Option<Model>, isLoading: bool): (status: string)
    ensures status == "loaded" <==> model.Some? && !isLoading
    ensures status == "loading" <==> isLoading
    ensures status == "not_loaded" <==> model.None? && !isLoading
  {
    if model.Some? && !isLoading then "loaded" else if isLoading then "loading" else "not_loaded"
  }

  /**
   * `model.transcribe(path, **options)`, an oracle: what the library does
   * with the file at `path` under `options`.
   */
  type ModelCall = (string, map<string, J>) -> Outcome<WhisperResult>

  /** The options passed to `model.transcribe`: `language` only when one is given. */
  function TranscribeOptions(language: Option<string>, task: string): (options: map<string, J>)
    ensures "task" in options && options["task"] == JStr(task)
    ensures "fp16" in options && options["fp16"] == JBool(false)
    ensures "language" in options <==> language.Some? && language.value != []
    ensures "language" in options ==> options["language"] == JStr(language.value)
  {
    var base := map["task" := JStr(task), "fp16" := JBool(false)];
    if language.Some? && language.value != [] then base["language" := JStr(language.value)] else base
  }

  /** One element of the response's `segments`. */
  function SegmentJson(s: Segment): (j: J)
    ensures j.JObj? && j.fields.Keys == {"start", "end", "text"}
    ensures j.fields["text"] == JStr(Strip(s.text))
  {
    JObj(map["start" := s.start, "end" := s.end, "text" := JStr(Strip(s.text))])
  }

  /** The response's `segments`: each segment shaped in order, none when the result has no `segments`. */
  function SegmentsJson(segments: Option<seq<Segment>>): (items: seq<J>)
    ensures segments.None? ==> items == []
    ensures segments.Some? ==> (
      |items| == |segments.value| &&
      forall i :: 0 <= i < |items| ==> items[i] == SegmentJson(segments.value[i]))
  {
    if segments.None? then []
    else seq(|segments.value|, i requires 0 <= i < |segments.value| => SegmentJson(segments.value[i]))
  }

  /** The response built from a transcription result. */
  function TranscriptionResponse(modelSize: string, result: WhisperResult): (r: map<string, J>)
    ensures "text" in r && r["text"] == JStr(Strip(result.text))
    ensures "language" in r && r["language"] == JStr(if result.language.Some? then result.language.value else "unknown")
    ensures "segments" in r && r["segments"] == JList(SegmentsJson(result.segments))
    ensures "model_size" in r && r["model_size"] == JStr(modelSize)
    ensures r.Keys == {"text", "language", "model_size", "segments"}
  {
    var language := JStr(if result.language.Some? then result.language.value else "unknown");
    var segments := JList(SegmentsJson(result.segments));
    var text := JStr(Strip(result.text));
    map["language" := language, "model_size" := JStr(modelSize), "segments" := segments, "text" := text]
  }

  class SimpleWhisperService {
    const modelSize: string
    const device: string
    var model: Option<Model>
    var isLoading: bool

    /** `__init__`: choose the size, then `_load_model()`. */
    constructor (requested: Option<string>, env: Option<string>, load: Outcome<Model>)
      ensures modelSize == ChooseModelSize(requested, env) && device == "cpu"
      ensures (model, isLoading) == LoadSpec(None, false, load)
    {
      modelSize := ChooseModelSize(requested, env);
      device := "cpu";
      model := None;
      isLoading := false;
      new;
      LoadModel(load);
    }

    /** `_load_model()`: skipped while a load is running; `is_loading` reset in `finally`. */
    method LoadModel(load: Outcome<Model>)
      modifies this
      ensures (model, isLoading) == LoadSpec(old(model), old(isLoading), load)
    {
      if isLoading {
        return;
      }
      isLoading := true;
      if load.Returned? {
        model := Some(load.value);
      } else {
        model := None;
      }
      isLoading := false;
    }

    /** `is_model_loaded()`. */
    predicate IsModelLoaded()
      reads this
    {
      model.Some? && !isLoading
    }

    /** `transcribe_audio(path, language, task)`: the response or the exception raised. */
    function TranscribeAudio(audioPath: string, language: Option<string>, task: string, files: set<string>,
                             transcribe: ModelCall): (r: Outcome<map<string, J>>)
      reads this
    {
      if !IsModelLoaded() then Raised(Exc(Exception, "Whisper model is not loaded"))
      else if audioPath !in files then Raised(Exc(Exception, "Audio file not found: " + audioPath))
      else match transcribe(audioPath, TranscribeOptions(language, task))
        case Raised(e) => Raised(Exc(Exception, "Transcription failed: " + e.message))
        case Returned(result) => Returned(TranscriptionResponse(modelSize, result))
    }

    /** `get_supported_languages()`: the library's list when loaded and importable, else the fixed 12. */
    function GetSupportedLanguages(library: Option<seq<string>>): (codes: seq<string>)
      reads this
      ensures !IsModelLoaded() || library.None? ==> codes == FallbackLanguages
      ensures IsModelLoaded() && library.Some? ==> codes == library.value
    {
      if !IsModelLoaded() then FallbackLanguages
      else if library.Some? then library.value
      else FallbackLanguages
    }

    /** `get_model_info()`. */
    function GetModelInfo(): (info: map<string, J>)
      reads this
      ensures info.Keys == {"model_size", "device", "status", "cuda_available", "mps_available"}
      ensures info["status"] == JStr(ModelStatus(model, isLoading))
      ensures info["model_size"] == JStr(modelSize) && info["device"] == JStr(device)
    {
      map["model_size" := JStr(modelSize), "device" := JStr(device),
          "status" := JStr(ModelStatus(model, isLoading)),
          "cuda_available" := JBool(false), "mps_available" := JBool(false)]
    }
  }

  /** The status is `loaded` exactly when `is_model_loaded()` holds. */
  lemma StatusMatchesLoaded(s: SimpleWhisperService)
    ensures ModelStatus(s.model, s.isLoading) == "loaded" <==> s.IsModelLoaded()
  {
  }

  /**
   * Outside `_load_model` the flag is false: the constructor and every load
   * leave it so. Sequentially, the status is therefore never `loading`.
   */
  lemma NeverSeenLoading(model: Option<Model>, load: Outcome<Model>)
    ensures !LoadSpec(model, false, load).1
    ensures var (m, l) := LoadSpec(model, false, load); ModelStatus(m, l) != "loading"
  {
  }

  /**
   * A transcription needs a loaded model and an existing file, checked in
   * that order; the response carries the stripped text, the language or
   * `unknown`, the model size, and the segments (none when absent); a
   * failing model call is re-raised as `Transcription failed: …`. The model
   * is called on the path with the task and `fp16` off, and with the
   * language only when one was given.
   */
  lemma TranscribeOutcome(s: SimpleWhisperService, audioPath: string, language: Option<string>, task: string,
                          files: set<string>, transcribe: ModelCall)
    ensures var r := s.TranscribeAudio(audioPath, language, task, files, transcribe);
      var call := transcribe(audioPath, TranscribeOptions(language, task));
      (r.Returned? <==> s.IsModelLoaded() && audioPath in files && call.Returned?) &&
      (!s.IsModelLoaded() ==> r == Raised(Exc(Exception, "Whisper model is not loaded"))) &&
      (s.IsModelLoaded() && audioPath !in files ==> r == Raised(Exc(Exception, "Audio file not found: " + audioPath))) &&
      (s.IsModelLoaded() && audioPath in files && call.Raised? ==>
        r == Raised(Exc(Exception, "Transcription failed: " + call.error.message))) &&
      (r.Returned? ==> r.value["text"] == JStr(Strip(call.value.text)) &&
                       r.value["model_size"] == JStr(s.modelSize))
  {
  }
}
