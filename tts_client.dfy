/**
 * The browser's text-to-speech client used by the application
 * (`services/TTSService.js`): base URL choice, health probe, synthesis
 * requests, and the `currentAudioId` it clears only after a cleanup that
 * succeeded.
 */
module TtsClient {
  import opened Wrappers
  import opened Strings
  import opened Http

  /** `new TTSService(baseUrl)`: an explicit non-empty URL wins, then the page's loopback host, then the service name. */
  function ChooseBaseUrl(explicit: Option<string>, hostname: string): (url: string)
    ensures explicit.Some? && explicit.value != [] ==> url == explicit.value
    ensures !(explicit.Some? && explicit.value != []) ==>
      url == (if hostname == "localhost" || hostname == "127.0.0.1" then "http://" + hostname + ":7000"
              else "http://tts-service:7000")
  {
    if explicit.Some? && explicit.value != [] then explicit.value
    else if hostname == "localhost" || hostname == "127.0.0.1" then "http://" + hostname + ":7000"
    else "http://tts-service:7000"
  }

  /** A response read as JSON, or the error a failed read or a non-OK status throws. */
  function JsonOf(fetch: FetchOutcome, nonOkMessage: nat -> string): (r: Result<J, string>)
    ensures fetch.Rejected? ==> r == Err(fetch.message)
    ensures fetch.Responded? && !fetch.ok ==> r == Err(nonOkMessage(fetch.status))
    ensures r.Ok? <==> fetch.Responded? && fetch.ok && fetch.body.Ok?
    ensures r.Ok? ==> r.value == fetch.body.value
  {
    match fetch
    case Rejected(_, message) => Err(message)
    case Responded(ok, status, _, body) =>
      if !ok then Err(nonOkMessage(status))
      else body
  }

  function HttpErrorStatus(status: nat): string {
    "HTTP error! status: " + NatToString(status)
  }

  /** `cleanup(id)` does not look at the status: any response whose body is JSON counts as done. */
  function AnyStatus(fetch: FetchOutcome): (r: Result<J, string>)
    ensures r.Ok? <==> fetch.Responded? && fetch.body.Ok?
  {
    match fetch
    case Rejected(_, message) => Err(message)
    case Responded(_, _, _, body) => body
  }

  /** `cleanupCurrent()`: the new id and the requests sent. */
  function CleanupCurrentSpec(id: Option<string>, baseUrl: string, fetch: FetchOutcome): (Option<string>, seq<Effect>)
  {
    if id.None? || id.value == [] then (id, [])
    else
      var sent := [Fetch("DELETE", baseUrl + "/cleanup/" + id.value, NoBody)];
      if AnyStatus(fetch).Ok? then (None, sent) else (id, sent)
  }

  /** Without a (truthy) id nothing is sent and nothing changes. */
  lemma CleanupWithoutId(baseUrl: string, fetch: FetchOutcome)
    ensures CleanupCurrentSpec(None, baseUrl, fetch) == (None, [])
    ensures CleanupCurrentSpec(Some([]), baseUrl, fetch) == (Some([]), [])
  {
  }

  /**
   * With an id, exactly one DELETE for that id is sent; the id is cleared iff
   * the cleanup call returned, and is kept when it threw.
   */
  lemma CleanupClearsOnlyOnSuccess(id: string, baseUrl: string, fetch: FetchOutcome)
    requires id != []
    ensures var (id', sent) := CleanupCurrentSpec(Some(id), baseUrl, fetch);
      sent == [Fetch("DELETE", baseUrl + "/cleanup/" + id, NoBody)] &&
      (id' == None <==> fetch.Responded? && fetch.body.Ok?) &&
      (id' != None ==> id' == Some(id))
  {
  }

  /** Running `cleanupCurrent()` again after one that succeeded sends nothing. */
  lemma CleanupCurrentSettles(id: Option<string>, baseUrl: string, fetch: FetchOutcome, fetch2: FetchOutcome)
    requires CleanupCurrentSpec(id, baseUrl, fetch).0 == None
    ensures CleanupCurrentSpec(CleanupCurrentSpec(id, baseUrl, fetch).0, baseUrl, fetch2) == (None, [])
  {
  }

  class TTSService {
    const baseUrl: string
    var currentAudioId: Option<string>

    constructor (explicit: Option<string>, hostname: string)
      ensures baseUrl == ChooseBaseUrl(explicit, hostname) && currentAudioId == None
    {
      baseUrl := ChooseBaseUrl(explicit, hostname);
      currentAudioId := None;
    }

    /** `testConnection()`: true iff the health request got an OK response. */
    method TestConnection(fetch: FetchOutcome) returns (available: bool, sent: Effect)
      ensures available <==> fetch.Responded? && fetch.ok
      ensures sent == Fetch("GET", baseUrl + "/health", NoBody)
    {
      sent := Fetch("GET", baseUrl + "/health", NoBody);
      match fetch {
        case Rejected(_, _) => available := false;
        case Responded(ok, _, _, _) => available := ok;
      }
    }

    /** `synthesizeText(text, voice)`: a JSON POST; a non-OK status throws with the status. */
    method SynthesizeText(text: string, voice: Option<string>, fetch: FetchOutcome)
      returns (r: Result<J, string>, sent: Effect)
      ensures sent == Fetch("POST", baseUrl + "/synthesize", JsonBody(SynthesisBody(text, voice)))
      ensures r == JsonOf(fetch, HttpErrorStatus)
      ensures fetch.Responded? && !fetch.ok ==> r == Err("HTTP error! status: " + NatToString(fetch.status))
    {
      sent := Fetch("POST", baseUrl + "/synthesize", JsonBody(SynthesisBody(text, voice)));
      match fetch {
        case Rejected(_, message) =>
          r := Err(message);
        case Responded(ok, status, _, body) =>
          if !ok {
            r := Err("HTTP error! status: " + NatToString(status));
          } else {
            r := body;
          }
      }
    }

    /** `synthesize(text, voice)` delegates; neither of them touches `currentAudioId`. */
    method Synthesize(text: string, voice: Option<string>, fetch: FetchOutcome)
      returns (r: Result<J, string>, sent: Effect)
      ensures sent == Fetch("POST", baseUrl + "/synthesize", JsonBody(SynthesisBody(text, voice)))
      ensures r == JsonOf(fetch, HttpErrorStatus)
    {
      r, sent := SynthesizeText(text, voice, fetch);
    }

    /** `getDownloadUrl(id)`. */
    function DownloadUrl(audioId: string): (url: string)
      ensures StartsWith(url, baseUrl) && EndsWith(url, "/download/" + audioId)
    {
      baseUrl + "/download/" + audioId
    }

    /** `cleanup(id)`: a DELETE whose JSON body is returned whatever the status. */
    method Cleanup(audioId: string, fetch: FetchOutcome) returns (r: Result<J, string>, sent: Effect)
      ensures sent == Fetch("DELETE", baseUrl + "/cleanup/" + audioId, NoBody)
      ensures r == AnyStatus(fetch)
    {
      sent := Fetch("DELETE", baseUrl + "/cleanup/" + audioId, NoBody);
      match fetch {
        case Rejected(_, message) => r := Err(message);
        case Responded(_, _, _, body) => r := body;
      }
    }

    /** `cleanupCurrent()`: failures are swallowed and keep the id. */
    method CleanupCurrent(fetch: FetchOutcome) returns (sent: seq<Effect>)
      modifies this
      ensures (currentAudioId, sent) == CleanupCurrentSpec(old(currentAudioId), baseUrl, fetch)
    {
      sent := [];
      if currentAudioId.Some? && currentAudioId.value != [] {
        var r, e := Cleanup(currentAudioId.value, fetch);
        sent := [e];
        if r.Ok? {
          currentAudioId := None;
        }
      }
    }
  }

  /** The JSON body `{text, voice}` of a synthesis request; an absent voice is `null`. */
  function SynthesisBody(text: string, voice: Option<string>): (j: J)
    ensures Field(j, "text") == JStr(text)
    ensures Field(j, "voice") == (if voice.Some? then JStr(voice.value) else JNull)
  {
    JObj(map["text" := JStr(text), "voice" := if voice.Some? then JStr(voice.value) else JNull])
  }
}
