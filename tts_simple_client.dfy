/**
 * The simplified browser text-to-speech client (`tts.js`): it sends trimmed
 * text, remembers the id of the audio it synthesised, and forgets that id on
 * cleanup whether or not the DELETE went through.
 */
module TtsSimpleClient {
  import opened Wrappers
  import opened Strings
  import opened Http

  const BaseUrl := "http://localhost:7000"
  const DefaultVoice := "en-US-gtts"

  /** The JSON body of a synthesis request. */
  function SynthesisBody(text: string, voice: string): (j: J)
    ensures Field(j, "text") == JStr(text) && Field(j, "voice") == JStr(voice)
  {
    JObj(map["text" := JStr(text), "voice" := JStr(voice)])
  }

  /** The request `synthesize(text, voice)` sends: the text with surrounding whitespace removed. */
  function SynthesisRequest(text: string, voice: string): (e: Effect)
    ensures e.Fetch? && e.verb == "POST" && e.url == BaseUrl + "/synthesize"
    ensures e.payload == JsonBody(SynthesisBody(Trim(text), voice))
  {
    Fetch("POST", BaseUrl + "/synthesize", JsonBody(SynthesisBody(Trim(text), voice)))
  }

  /** The `TypeError` of reading `audio_id` from a `null` reply. */
  const NullResultError := "Cannot read properties of null (reading 'audio_id')"

  /** `synthesize(text, voice)`: the new id, the result, and the request sent. */
  function SynthesizeSpec(id: Option<string>, text: string, voice: string, fetch: FetchOutcome)
    : (Option<string>, Result<J, string>, Effect)
  {
    var sent := SynthesisRequest(text, voice);
    match fetch
    case Rejected(_, message) => (id, Err(message), sent)
    case Responded(ok, status, _, body) =>
      if !ok then (id, Err("TTS failed: " + NatToString(status)), sent)
      else if body.Err? then (id, Err(body.error), sent)
      else if body.value == JNull then (id, Err(NullResultError), sent)
      else (AudioIdOf(body.value), Ok(body.value), sent)
  }

  /**
   * A failed synthesis, a `null` reply included, leaves the id alone; a
   * successful one takes the response's id.
   */
  lemma SynthesizeSetsIdOnlyOnSuccess(id: Option<string>, text: string, voice: string, fetch: FetchOutcome)
    ensures var (id', r, _) := SynthesizeSpec(id, text, voice, fetch);
      (r.Err? ==> id' == id) && (r.Ok? ==> id' == AudioIdOf(r.value) && r.value != JNull) &&
      (fetch.Responded? && !fetch.ok ==> r == Err("TTS failed: " + NatToString(fetch.status)))
  {
    match fetch
    case Rejected(_, _) =>
    case Responded(ok, status, _, body) =>
      if ok && body.Ok? && body.value != JNull {
        assert SynthesizeSpec(id, text, voice, fetch).1 == Ok(body.value);
      }
  }

  /**
   * The text sent has no surrounding whitespace, and text that differs only
   * by surrounding whitespace is sent the same.
   */
  lemma SynthesisSendsStrippedText(text: string, voice: string)
    ensures var t := Field(SynthesisRequest(text, voice).payload.json, "text");
      t.JStr? && (t.s == [] || (!IsSpace(t.s[0], JavaScript) && !IsSpace(t.s[|t.s| - 1], JavaScript)))
    ensures SynthesisRequest(Trim(text), voice) == SynthesisRequest(text, voice)
  {
    TrimIdempotent(text);
  }

  /** `cleanupCurrent()`: the new id and the requests sent. */
  function CleanupCurrentSpec(id: Option<string>): (Option<string>, seq<Effect>)
  {
    if id.None? || id.value == [] then (id, [])
    else (None, [Fetch("DELETE", BaseUrl + "/cleanup/" + id.value, NoBody)])
  }

  /** With an id, one DELETE is sent and the id always ends up cleared; without one nothing happens. */
  lemma CleanupAlwaysClears(id: Option<string>)
    ensures var (id', sent) := CleanupCurrentSpec(id);
      (id.Some? && id.value != [] ==> id' == None && |sent| == 1 && sent[0].url == BaseUrl + "/cleanup/" + id.value) &&
      (id.None? || id.value == [] ==> id' == id && sent == [])
  {
  }

  class TTSService {
    var currentAudioId: Option<string>

    constructor ()
      ensures currentAudioId == None
    {
      currentAudioId := None;
    }

    /** `testConnection()`: true iff the health request got an OK response in time. */
    method TestConnection(fetch: FetchOutcome) returns (available: bool, sent: Effect)
      ensures available <==> fetch.Responded? && fetch.ok
      ensures sent == Fetch("GET", BaseUrl + "/health", NoBody)
    {
      sent := Fetch("GET", BaseUrl + "/health", NoBody);
      available := fetch.Responded? && fetch.ok;
    }

    method Synthesize(text: string, voice: string, fetch: FetchOutcome) returns (r: Result<J, string>, sent: Effect)
      modifies this
      ensures (currentAudioId, r, sent) == SynthesizeSpec(old(currentAudioId), text, voice, fetch)
    {
      sent := SynthesisRequest(text, voice);
      match fetch {
        case Rejected(_, message) =>
          r := Err(message);
        case Responded(ok, status, _, body) =>
          if !ok {
            r := Err("TTS failed: " + NatToString(status));
          } else if body.Err? {
            r := Err(body.error);
          } else if body.value == JNull {
            r := Err(NullResultError);
          } else {
            currentAudioId := AudioIdOf(body.value);
            r := Ok(body.value);
          }
      }
    }

    /** `cleanupCurrent()`: the DELETE's outcome is ignored. */
    method CleanupCurrent() returns (sent: seq<Effect>)
      modifies this
      ensures (currentAudioId, sent) == CleanupCurrentSpec(old(currentAudioId))
    {
      if currentAudioId.None? || currentAudioId.value == [] {
        return [];
      }
      sent := [Fetch("DELETE", BaseUrl + "/cleanup/" + currentAudioId.value, NoBody)];
      currentAudioId := None;
    }
  }
}
