/**
 * The text-to-speech service (`tts-service/app.py`): `SimpleTTSService`,
 * which writes `<id>.mp3` with gTTS or `<id>.wav` with the Coqui fallback,
 * and the routes that synthesise, download and clean up those files.
 *
 * The output directory is the set of paths that exist in it. Which
 * libraries import, the fresh `uuid4`, a failure of the Coqui model's
 * construction and a failure while writing the audio are parameters.
 */
module TtsApp {
  import opened Wrappers
  import opened Strings
  import opened Http
  import opened TranslationErrors
  import opened Handlers

  const OutputPath := "/app/output"

  /** `os.path.join(output_path, f"{audio_id}.mp3")`. */
  function Mp3Path(audioId: string): string {
    OutputPath + "/" + audioId + ".mp3"
  }

  /** `os.path.join(output_path, f"{audio_id}.wav")`. */
  function WavPath(audioId: string): string {
    OutputPath + "/" + audioId + ".wav"
  }

  /** The two files of one id are different paths. */
  lemma {:induction false} Mp3IsNotWav(audioId: string)
    ensures Mp3Path(audioId) != WavPath(audioId)
  {
    var n := |OutputPath + "/" + audioId|;
    assert Mp3Path(audioId)[n + 1] == 'm';
    assert WavPath(audioId)[n + 1] == 'w';
  }

  /** The speech libraries that can be imported. */
  datatype Libraries = Libraries(gtts: bool, coqui: bool)

  const NotAvailable := Exc(Builtin("ValueError"), "TTS not available")

  /**
   * An exception raised while the audio is produced, and whether the output
   * file had been created by then: gTTS's `save` opens the file before it
   * fetches the audio, so a network failure leaves an empty or partial file;
   * an exception from the `gTTS(...)` constructor comes before any file.
   */
  datatype WriteFailure = WriteFailure(error: Exc, created: bool)

  /** The output directory after writing `path`: the file exists unless the write failed before creating it. */
  function AfterWrite(files: set<string>, path: string, write: Option<WriteFailure>): set<string> {
    if write.None? || write.value.created then files + {path} else files
  }

  /** `synthesize` gets as far as writing: gTTS imports, or Coqui does and its model is, or now gets, constructed. */
  predicate ReachesWrite(libraries: Libraries, coquiLoaded: bool, load: Option<Exc>) {
    libraries.gtts || (libraries.coqui && (coquiLoaded || load.None?))
  }

  /** The outcome of writing `path` for `audioId`. */
  function WriteOutcome(path: string, audioId: string, write: Option<WriteFailure>): Outcome<(string, string)> {
    if write.Some? then Raised(write.value.error) else Returned((path, audioId))
  }

  /** `'text' in data` followed by `data['text']`: the text if present, or the `TypeError` the body's type raises. */
  function TextField(data: J): (o: Outcome<Option<J>>)
    ensures data.JObj? ==> o == Returned(if "text" in data.fields then Some(data.fields["text"]) else None)
  {
    match data
    case JObj(fields) => Returned(if "text" in fields then Some(fields["text"]) else None)
    case JList(items) =>
      if JStr("text") in items then Raised(Exc(Builtin("TypeError"), "list indices must be integers or slices, not str"))
      else Returned(None)
    case JStr(s) =>
      if Contains(s, "text") then Raised(Exc(Builtin("TypeError"), "string indices must be integers"))
      else Returned(None)
    case _ => Raised(Exc(Builtin("TypeError"), "argument of type '" + PyTypeName(data) + "' is not iterable"))
  }

  /** `data['text']` after the presence checks, or the reply that refuses the body. */
  function BodyText(data: J): (r: Result<J, Reply>)
    ensures r.Ok? <==> data.JObj? && "text" in data.fields
    ensures r.Ok? ==> r.value == data.fields["text"]
    ensures r.Err? ==> r.error.JsonReply? && (r.error.status == 400 || r.error.status == 500)
  {
    if !PyTruthy(data) then Err(ErrorReply(400, "Text is required"))
    else match TextField(data)
      case Raised(e) => Err(Failure(e))
      case Returned(field) => if field.None? then Err(ErrorReply(400, "Text is required")) else Ok(field.value)
  }

  /**
   * The text `/synthesize` speaks, or the reply that refuses the body: 400
   * for a missing body or `text`, 400 for a blank text, 500 for the
   * exceptions `data['text']` and `text.strip()` raise on other shapes.
   */
  function SynthesisText(data: J): (r: Result<string, Reply>)
    ensures r.Ok? <==> data.JObj? && "text" in data.fields && data.fields["text"].JStr? && !IsBlank(data.fields["text"].s)
    ensures r.Ok? ==> r.value == data.fields["text"].s
    ensures r.Err? ==> r.error.JsonReply? && (r.error.status == 400 || r.error.status == 500)
  {
    match BodyText(data)
    case Err(reply) => Err(reply)
    case Ok(text) =>
      if !text.JStr? then
        Err(Failure(Exc(Builtin("AttributeError"), "'" + PyTypeName(text) + "' object has no attribute 'strip'")))
      else if IsBlank(text.s) then Err(ErrorReply(400, "Text cannot be empty"))
      else Ok(text.s)
  }

  /** A text made only of the separators Python counts as whitespace is refused as empty. */
  lemma SeparatorTextIsEmpty(c: char)
    requires '\U{001C}' <= c <= '\U{001F}'
    ensures IsError(SynthesisText(JObj(map["text" := JStr([c])])).error, 400, "Text cannot be empty")
  {
    var data := JObj(map["text" := JStr([c])]);
    assert "text" in data.fields;
    assert BodyText(data) == Ok(JStr([c]));
    StripRemovesSeparators(c);
    assert IsBlank([c]);
  }

  /** A missing body or `text` is refused before a blank text. */
  lemma SynthesisRejections(data: J)
    ensures !PyTruthy(data) ==> IsError(SynthesisText(data).error, 400, "Text is required")
    ensures data.JObj? && data.fields != map[] && "text" !in data.fields ==>
      IsError(SynthesisText(data).error, 400, "Text is required")
    ensures data.JObj? && "text" in data.fields && data.fields["text"].JStr? && IsBlank(data.fields["text"].s) ==>
      IsError(SynthesisText(data).error, 400, "Text cannot be empty")
  {
  }

  /** `send_file` of the mp3, else of the wav, else 404. */
  function DownloadReply(files: set<string>, audioId: string): (r: Reply)
    ensures Mp3Path(audioId) in files ==> r == FileReply(Mp3Path(audioId), "audio/mpeg")
    ensures Mp3Path(audioId) !in files && WavPath(audioId) in files ==> r == FileReply(WavPath(audioId), "audio/wav")
    ensures r.Status() == 404 <==> Mp3Path(audioId) !in files && WavPath(audioId) !in files
  {
    if Mp3Path(audioId) in files then FileReply(Mp3Path(audioId), "audio/mpeg")
    else if WavPath(audioId) in files then FileReply(WavPath(audioId), "audio/wav")
    else ErrorReply(404, "Audio file not found")
  }

  /** Once both files of an id are gone, its download is 404. */
  lemma CleanedIsNotFound(files: set<string>, audioId: string)
    ensures DownloadReply(files - {Mp3Path(audioId), WavPath(audioId)}, audioId).Status() == 404
  {
  }

  /** A freshly written mp3 is served; a wav is served when no mp3 of that id exists. */
  lemma WrittenIsServed(files: set<string>, audioId: string)
    ensures DownloadReply(files + {Mp3Path(audioId)}, audioId) == FileReply(Mp3Path(audioId), "audio/mpeg")
    ensures Mp3Path(audioId) !in files ==>
      DownloadReply(files + {WavPath(audioId)}, audioId) == FileReply(WavPath(audioId), "audio/wav")
  {
    Mp3IsNotWav(audioId);
  }

  class SimpleTtsService {
    var ttsAvailable: bool
    var coquiLoaded: bool       // `hasattr(self, 'coqui_tts')`
    var files: set<string>      // the files in the output directory

    /** `__init__` and `_test_tts`: available when either library imports. */
    constructor (libraries: Libraries, existing: set<string>)
      ensures ttsAvailable == (libraries.gtts || libraries.coqui)
      ensures !coquiLoaded && files == existing
    {
      ttsAvailable := libraries.gtts || libraries.coqui;
      coquiLoaded := false;
      files := existing;
    }

    /**
     * `synthesize(text)`: `ValueError` when unavailable; else `<id>.mp3`
     * via gTTS, or, when gTTS no longer imports, `<id>.wav` via Coqui. The
     * Coqui model is constructed on first use and kept only when its
     * construction returned (`load`). An exception while writing (`write`)
     * escapes; the file stays behind if it had been created.
     */
    method Synthesize(text: string, audioId: string, libraries: Libraries,
                      load: Option<Exc>, write: Option<WriteFailure>)
      returns (r: Outcome<(string, string)>)
      modifies this
      ensures ttsAvailable == old(ttsAvailable)
      ensures !ttsAvailable ==> r == Raised(NotAvailable) && files == old(files) && coquiLoaded == old(coquiLoaded)
      ensures ttsAvailable && libraries.gtts ==>
        r == WriteOutcome(Mp3Path(audioId), audioId, write) &&
        files == AfterWrite(old(files), Mp3Path(audioId), write) && coquiLoaded == old(coquiLoaded)
      ensures ttsAvailable && !libraries.gtts && !libraries.coqui ==>
        r.Raised? && r.error.cls == Builtin("ImportError") && files == old(files) && coquiLoaded == old(coquiLoaded)
      ensures ttsAvailable && !libraries.gtts && libraries.coqui && !old(coquiLoaded) && load.Some? ==>
        r == Raised(load.value) && files == old(files) && !coquiLoaded
      ensures ttsAvailable && !libraries.gtts && libraries.coqui && (old(coquiLoaded) || load.None?) ==>
        r == WriteOutcome(WavPath(audioId), audioId, write) &&
        files == AfterWrite(old(files), WavPath(audioId), write) && coquiLoaded
    {
      if !ttsAvailable {
        return Raised(NotAvailable);
      }
      var path;
      if libraries.gtts {
        path := Mp3Path(audioId);
      } else {
        if !libraries.coqui {
          return Raised(Exc(Builtin("ImportError"), "No module named 'TTS'"));
        }
        if !coquiLoaded {
          if load.Some? {
            return Raised(load.value);
          }
          coquiLoaded := true;
        }
        path := WavPath(audioId);
      }
      if write.None? || write.value.created {
        files := files + {path};
      }
      if write.Some? {
        return Raised(write.value.error);
      }
      r := Returned((path, audioId));
    }

    /** `GET /health`: 200 and healthy exactly when a library was found. */
    function Health(): (r: Reply)
      reads this
      ensures r.JsonReply? && (r.status == 200 <==> ttsAvailable) && (r.status == 503 <==> !ttsAvailable)
      ensures "tts_available" in r.body && r.body["tts_available"] == JBool(ttsAvailable)
    {
      JsonReply(if ttsAvailable then 200 else 503,
                map["status" := JStr(if ttsAvailable then "healthy" else "unhealthy"),
                    "service" := JStr("tts-service-simple"),
                    "tts_available" := JBool(ttsAvailable)])
    }

    /**
     * `POST /synthesize`: the body checks, then an available service, then
     * the synthesis; any exception gives 500. A success names a file that
     * `/download/<audio_id>` now serves, and so does a failed write that had
     * created its file, though the client is never told that id.
     */
    method SynthesizeRoute(data: J, audioId: string, libraries: Libraries,
                           load: Option<Exc>, write: Option<WriteFailure>) returns (r: Reply)
      modifies this
      ensures ttsAvailable == old(ttsAvailable)
      ensures r.JsonReply?
      ensures SynthesisText(data).Err? ==> r == SynthesisText(data).error && files == old(files)
      ensures SynthesisText(data).Ok? && !ttsAvailable ==>
        IsError(r, 503, "TTS service not available") && files == old(files)
      ensures r.status == 200 <==>
        SynthesisText(data).Ok? && ttsAvailable && ReachesWrite(libraries, old(coquiLoaded), load) && write.None?
      ensures r.status == 200 ==> (
        "audio_id" in r.body && "download_url" in r.body &&
        r.body["audio_id"] == JStr(audioId) && r.body["download_url"] == JStr("/download/" + audioId) &&
        DownloadReply(files, audioId).FileReply?)
      ensures SynthesisText(data).Ok? && ttsAvailable && ReachesWrite(libraries, old(coquiLoaded), load) &&
              write.Some? && write.value.created ==>
        r.status == 500 && DownloadReply(files, audioId).FileReply?
    {
      var text := SynthesisText(data);
      if text.Err? {
        return text.error;
      }
      if !ttsAvailable {
        return ErrorReply(503, "TTS service not available");
      }
      var outcome := Synthesize(text.value, audioId, libraries, load, write);
      WrittenIsServed(old(files), audioId);
      if outcome.Raised? {
        return Failure(outcome.error);
      }
      r := JsonReply(200, map["message" := JStr("Speech synthesized successfully"),
                              "download_url" := JStr("/download/" + outcome.value.1),
                              "audio_id" := JStr(outcome.value.1)]);
    }

    /** `DELETE /cleanup/<audio_id>`: removes the mp3 and the wav; 200 if either existed, else 404. */
    method Cleanup(audioId: string) returns (r: Reply)
      modifies this
      ensures ttsAvailable == old(ttsAvailable) && coquiLoaded == old(coquiLoaded)
      ensures files == old(files) - {Mp3Path(audioId), WavPath(audioId)}
      ensures r.JsonReply?
      ensures r.status == 200 <==> Mp3Path(audioId) in old(files) || WavPath(audioId) in old(files)
      ensures r.status != 200 ==> IsError(r, 404, "File not found")
    {
      var cleaned := false;
      if Mp3Path(audioId) in files {
        files := files - {Mp3Path(audioId)};
        cleaned := true;
      }
      if WavPath(audioId) in files {
        files := files - {WavPath(audioId)};
        cleaned := true;
      }
      if cleaned {
        r := JsonReply(200, map["message" := JStr("Cleaned up")]);
      } else {
        r := ErrorReply(404, "File not found");
      }
    }
  }
}
