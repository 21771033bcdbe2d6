/**
 * The browser's transcription client (`WhisperAPI`): endpoint discovery over
 * an ordered list of health URLs with bounded retries, a request layer that
 * memoises the discovery and caches GET replies, and the request builders
 * for transcription and translation.
 *
 * Every `fetch` is an oracle: a probe's outcome is given by a function of the
 * candidate's index and the attempt number, a request's outcome is a
 * parameter. What the client does with the network is returned as a trace of
 * effects, the 1 s back-off included.
 */
module WhisperApi {
  import opened Wrappers
  import opened Strings
  import opened Http

  const ApiBaseUrl := "http://whisper-backend:5000"
  const DefaultRetries := 3

  predicate IsLoopback(host: string) {
    host == "localhost" || host == "127.0.0.1"
  }

  function HealthUrlOf(origin: string): string { origin + "/health" }

  // ------------------------------------------------------- base URL choice

  /**
   * The API base derived from a health URL that answered. The source rewrites
   * the first occurrence of "/health" (see `ApiBaseAsWritten`); the model
   * rewrites the trailing path segment, which is what the rewrite is for.
   */
  function ApiBaseFor(healthUrl: string): (base: string)
    ensures EndsWith(healthUrl, "/health") ==>
      base == healthUrl[..|healthUrl| - 7] + "/api/v1"
  {
    if EndsWith(healthUrl, "/health") then healthUrl[..|healthUrl| - 7] + "/api/v1"
    else ReplaceFirst(healthUrl, "/health", "/api/v1")
  }

  /** `url.replace('/health', '/api/v1')` as the source writes it. */
  function ApiBaseAsWritten(healthUrl: string): string {
    ReplaceFirst(healthUrl, "/health", "/api/v1")
  }

  /** Every health URL of the form `<origin>/health` maps to `<origin>/api/v1`. */
  lemma ApiBaseOfHealthUrl(origin: string)
    ensures ApiBaseFor(HealthUrlOf(origin)) == origin + "/api/v1"
  {
    var u := HealthUrlOf(origin);
    assert u[|u| - 7..] == "/health";
    assert u[..|u| - 7] == origin;
  }

  lemma HealthPrefixEarlyMatch(u: string, rest: string)
    requires u == "http:/" + "/health" + rest
    ensures forall j: nat :: j < 6 ==> !OccursAt(u, "/health", j)
    ensures OccursAt(u, "/health", 6)
  {
    var p := "/health";
    forall j: nat | j < 6
      ensures !OccursAt(u, p, j)
    {
      if j < 5 {
        assert u[j..j + |p|][0] == u[j];
      } else {
        assert u[j..j + |p|][1] == u[6];
      }
    }
    assert u[6..6 + |p|] == p;
  }

  /** A URL whose first "/health" follows "http:/" has that occurrence rewritten. */
  lemma SchemeHealthRewrite(rest: string)
    ensures ApiBaseAsWritten("http:/" + "/health" + rest) == "http:/" + "/api/v1" + rest
  {
    var u := "http:/" + "/health" + rest;
    HealthPrefixEarlyMatch(u, rest);
    ReplaceFirstAt(u, "/health", "/api/v1", 6);
    assert u[..6] == "http:/";
    assert u[13..] == rest;
  }

  lemma {:induction false} HealthHostAsWritten(host: string)
    requires StartsWith(host, "health")
    ensures ApiBaseAsWritten("http://" + host + ":5000/health") == "http://api/v1" + host[6..] + ":5000/health"
  {
    var rest := host[6..] + ":5000/health";
    assert host == "health" + host[6..];
    assert "http://" + host + ":5000/health" == "http:/" + "/health" + rest;
    SchemeHealthRewrite(rest);
    assert "http:/" + "/api/v1" + rest == "http://api/v1" + host[6..] + ":5000/health";
  }

  lemma {:induction false} HostApiBase(host: string)
    ensures ApiBaseFor("http://" + host + ":5000/health") == "http://" + host + ":5000/api/v1"
  {
    var origin := "http://" + host + ":5000";
    assert HealthUrlOf(origin) == "http://" + host + ":5000/health";
    ApiBaseOfHealthUrl(origin);
    assert origin + "/api/v1" == "http://" + host + ":5000/api/v1";
  }

  /** A plain origin's health URL does not start with the pattern. */
  lemma PlainOriginNoMatchAtStart(origin: string)
    requires origin != [] && !Contains(origin, "/health")
    ensures !OccursAt(HealthUrlOf(origin), "/health", 0)
  {
    var u := HealthUrlOf(origin);
    if |origin| >= 7 {
      assert u[..7] == origin[..7];
      assert !StartsWith(origin, "/health");
    } else {
      assert u[|origin|] == '/';
      assert "/health"[|origin|] != '/';
    }
    assert u[0..7] == u[..7];
  }

  /** The first character of a plain origin is copied, not the start of a match. */
  lemma PlainOriginHead(origin: string)
    requires origin != [] && !Contains(origin, "/health")
    ensures !Contains(origin[1..], "/health")
    ensures ApiBaseAsWritten(HealthUrlOf(origin)) == [origin[0]] + ApiBaseAsWritten(HealthUrlOf(origin[1..]))
  {
    var u := HealthUrlOf(origin);
    PlainOriginNoMatchAtStart(origin);
    ReplaceFirstSkip(u, "/health", "/api/v1");
    assert u[1..] == HealthUrlOf(origin[1..]);
  }

  lemma {:induction false} PlainOriginRewrite(origin: string)
    requires !Contains(origin, "/health")
    ensures ApiBaseAsWritten(HealthUrlOf(origin)) == origin + "/api/v1"
    decreases |origin|
  {
    if origin == [] {
      assert HealthUrlOf(origin)[..7] == "/health";
    } else {
      PlainOriginHead(origin);
      PlainOriginRewrite(origin[1..]);
      assert [origin[0]] + (origin[1..] + "/api/v1") == origin + "/api/v1";
    }
  }

  /**
   * The source's rewrite agrees with the intended one on every
   * `<origin>/health` whose origin does not itself contain "/health": the
   * first occurrence is then the trailing path.
   */
  lemma ApiBaseAsWrittenOnPlainOrigin(origin: string)
    requires !Contains(origin, "/health")
    ensures ApiBaseAsWritten(HealthUrlOf(origin)) == origin + "/api/v1"
    ensures ApiBaseAsWritten(HealthUrlOf(origin)) == ApiBaseFor(HealthUrlOf(origin))
  {
    PlainOriginRewrite(origin);
    ApiBaseOfHealthUrl(origin);
  }

  /**
   * For a host whose name begins with "health" (say `health.lan`), the
   * source's first-occurrence rewrite hits the "//health" right after the
   * scheme of the candidate `http://<host>:5000/health`, not its path, while
   * the intended rewrite gives that host's API base.
   */
  lemma ApiBaseAsWrittenMisrewrites(host: string, healthUrl: string)
    requires StartsWith(host, "health")
    ensures var u := TestUrls(host, healthUrl)[1];
      ApiBaseAsWritten(u) == "http://api/v1" + host[6..] + ":5000/health" &&
      ApiBaseFor(u) == "http://" + host + ":5000/api/v1"
  {
    HealthHostAsWritten(host);
    HostApiBase(host);
  }

  /** The URLs the constructor starts from: loopback hosts talk to port 5000 of themselves. */
  function InitialOrigin(host: string): (origin: string)
    ensures IsLoopback(host) ==> origin == "http://" + host + ":5000"
    ensures !IsLoopback(host) ==> origin == ApiBaseUrl
  {
    if IsLoopback(host) then "http://" + host + ":5000" else ApiBaseUrl
  }

  /** The ordered candidate list of `testConnection`. */
  function TestUrls(host: string, healthUrl: string): (urls: seq<string>)
    ensures |urls| == if IsLoopback(host) then 7 else 4
    ensures urls[0] == healthUrl
    ensures urls[1] == "http://" + host + ":5000/health"
    ensures IsLoopback(host) ==>
      (urls[4..] == ["http://whisper-backend:5000/health", "http://translation-service:6000/health",
                     "http://tts-service:7000/health"])
  {
    var base := [healthUrl, "http://" + host + ":5000/health",
                 "http://localhost:5000/health", "http://127.0.0.1:5000/health"];
    if IsLoopback(host) then
      base + ["http://whisper-backend:5000/health", "http://translation-service:6000/health",
              "http://tts-service:7000/health"]
    else base
  }

  // ------------------------------------------------------------- probing

  datatype ProbeOutcome = OkResponse | NotOkResponse | Thrown

  function Probe(url: string): Effect { Fetch("GET", url, NoBody) }

  /** The winning candidate's index, if any, and the effects of the probing. */
  datatype ProbeRun = ProbeRun(winner: Option<nat>, effects: seq<Effect>)

  function Prepend(effects: seq<Effect>, run: ProbeRun): ProbeRun {
    ProbeRun(run.winner, effects + run.effects)
  }

  lemma PrependPrepend(e1: seq<Effect>, e2: seq<Effect>, run: ProbeRun)
    ensures Prepend(e1 + e2, run) == Prepend(e1, Prepend(e2, run))
  {
    assert (e1 + e2) + run.effects == e1 + (e2 + run.effects);
  }

  /**
   * The effects of attempt `a` on one URL when it does not succeed: the probe,
   * then a 1 s back-off if it threw and another attempt on the URL follows.
   */
  function AttemptEffects(url: string, outcome: ProbeOutcome, a: nat, retries: nat): (e: seq<Effect>)
    ensures 1 <= |e| <= 2 && e[0] == Probe(url) && (|e| == 1 || e[1] == Wait)
  {
    [Probe(url)] + (if outcome == Thrown && a < retries - 1 then [Wait] else [])
  }

  /**
   * Probing from attempt `a` of candidate `i` on: a thrown probe waits before
   * the next attempt unless it was the last attempt for its URL, a non-OK
   * reply retries at once, and the first OK reply ends the search.
   */
  function ProbeFrom(urls: seq<string>, retries: nat, net: (nat, nat) -> ProbeOutcome, i: nat, a: nat): (run: ProbeRun)
    ensures run.winner.Some? ==> i <= run.winner.value < |urls|
    decreases |urls| - i, retries - a
  {
    if i >= |urls| then ProbeRun(None, [])
    else if a >= retries then ProbeFrom(urls, retries, net, i + 1, 0)
    else if net(i, a) == OkResponse then ProbeRun(Some(i), [Probe(urls[i])])
    else Prepend(AttemptEffects(urls[i], net(i, a), a, retries), ProbeFrom(urls, retries, net, i, a + 1))
  }

  /** The URLs fetched in a trace, in order. */
  function Fetched(effects: seq<Effect>): (urls: seq<string>)
    ensures |urls| <= |effects|
  {
    if effects == [] then []
    else (if effects[0].Fetch? then [effects[0].url] else []) + Fetched(effects[1..])
  }

  function WaitCount(effects: seq<Effect>): (n: nat)
    ensures n <= |effects|
  {
    if effects == [] then 0 else (if effects[0].Wait? then 1 else 0) + WaitCount(effects[1..])
  }

  lemma {:induction false} FetchedAppend(e1: seq<Effect>, e2: seq<Effect>)
    ensures Fetched(e1 + e2) == Fetched(e1) + Fetched(e2)
    decreases |e1|
  {
    if e1 != [] {
      assert (e1 + e2)[1..] == e1[1..] + e2;
      FetchedAppend(e1[1..], e2);
    } else {
      assert e1 + e2 == e2;
    }
  }

  lemma {:induction false} WaitCountAppend(e1: seq<Effect>, e2: seq<Effect>)
    ensures WaitCount(e1 + e2) == WaitCount(e1) + WaitCount(e2)
    decreases |e1|
  {
    if e1 != [] {
      assert (e1 + e2)[1..] == e1[1..] + e2;
      WaitCountAppend(e1[1..], e2);
    } else {
      assert e1 + e2 == e2;
    }
  }

  /** `x` repeated `n` times. */
  function Repeat(x: string, n: nat): (s: seq<string>)
    ensures |s| == n
    ensures forall k :: 0 <= k < n ==> s[k] == x
  {
    if n == 0 then [] else [x] + Repeat(x, n - 1)
  }

  /** Each URL repeated `r` times, in order. */
  function RepeatEach(urls: seq<string>, r: nat): (s: seq<string>)
    ensures |s| == |urls| * r
  {
    if urls == [] then [] else Repeat(urls[0], r) + RepeatEach(urls[1..], r)
  }

  ghost predicate NoneOk(urls: seq<string>, retries: nat, net: (nat, nat) -> ProbeOutcome) {
    forall i: nat, a: nat :: i < |urls| && a < retries ==> net(i, a) != OkResponse
  }

  lemma {:induction false} AllFailFrom(urls: seq<string>, retries: nat, net: (nat, nat) -> ProbeOutcome, i: nat, a: nat)
    requires NoneOk(urls, retries, net)
    requires i < |urls| && a <= retries
    ensures ProbeFrom(urls, retries, net, i, a).winner == None
    ensures Fetched(ProbeFrom(urls, retries, net, i, a).effects) ==
      Repeat(urls[i], retries - a) + RepeatEach(urls[i + 1..], retries)
    decreases |urls| - i, retries - a
  {
    if a == retries {
      if i + 1 < |urls| {
        AllFailFrom(urls, retries, net, i + 1, 0);
        assert urls[i + 1..][1..] == urls[i + 2..];
      } else {
        assert urls[i + 1..] == [];
      }
    } else {
      var head := AttemptEffects(urls[i], net(i, a), a, retries);
      var rest := ProbeFrom(urls, retries, net, i, a + 1);
      AllFailFrom(urls, retries, net, i, a + 1);
      FetchedAppend(head, rest.effects);
      assert Fetched(head) == [urls[i]] by {
        assert head[1..] == [] || head[1..] == [Wait];
      }
    }
  }

  /**
   * When no probe succeeds, every candidate is tried exactly `retries` times,
   * in list order, and the search reports failure.
   */
  lemma AllProbesFail(urls: seq<string>, retries: nat, net: (nat, nat) -> ProbeOutcome)
    requires NoneOk(urls, retries, net)
    ensures ProbeFrom(urls, retries, net, 0, 0).winner == None
    ensures Fetched(ProbeFrom(urls, retries, net, 0, 0).effects) == RepeatEach(urls, retries)
    ensures |Fetched(ProbeFrom(urls, retries, net, 0, 0).effects)| == |urls| * retries
  {
    if urls != [] {
      AllFailFrom(urls, retries, net, 0, 0);
    }
  }

  lemma {:induction false} WaitsFrom(urls: seq<string>, retries: nat, net: (nat, nat) -> ProbeOutcome, i: nat, a: nat, thrown: bool)
    requires forall i': nat, a': nat :: i' < |urls| && a' < retries ==> net(i', a') == (if thrown then Thrown else NotOkResponse)
    requires i <= |urls| && a <= retries && retries >= 1
    ensures WaitCount(ProbeFrom(urls, retries, net, i, a).effects) ==
      if !thrown || i == |urls| then 0
      else (|urls| - i - 1) * (retries - 1) + (if a < retries then retries - 1 - a else 0)
    decreases |urls| - i, retries - a
  {
    if i < |urls| {
      if a == retries {
        WaitsFrom(urls, retries, net, i + 1, 0, thrown);
        var n := |urls| - i - 1;
        if thrown && n > 0 {
          assert n * (retries - 1) == (n - 1) * (retries - 1) + (retries - 1);
        }
      } else {
        var rest := ProbeFrom(urls, retries, net, i, a + 1);
        WaitsFrom(urls, retries, net, i, a + 1, thrown);
        var head := AttemptEffects(urls[i], net(i, a), a, retries);
        WaitCountAppend(head, rest.effects);
        assert WaitCount(head) == (if thrown && a < retries - 1 then 1 else 0) by {
          assert head[1..] == [] || head[1..] == [Wait];
        }
      }
    }
  }

  /** When every probe throws, each candidate waits between attempts but never after its last one. */
  lemma ThrownProbesWait(urls: seq<string>, retries: nat, net: (nat, nat) -> ProbeOutcome)
    requires forall i: nat, a: nat :: i < |urls| && a < retries ==> net(i, a) == Thrown
    requires retries >= 1
    ensures WaitCount(ProbeFrom(urls, retries, net, 0, 0).effects) == |urls| * (retries - 1)
  {
    WaitsFrom(urls, retries, net, 0, 0, true);
  }

  /** A probe that gets a non-OK reply is retried at once: no back-off at all. */
  lemma NotOkProbesNeverWait(urls: seq<string>, retries: nat, net: (nat, nat) -> ProbeOutcome)
    requires forall i: nat, a: nat :: i < |urls| && a < retries ==> net(i, a) == NotOkResponse
    requires retries >= 1
    ensures WaitCount(ProbeFrom(urls, retries, net, 0, 0).effects) == 0
  {
    WaitsFrom(urls, retries, net, 0, 0, false);
  }

  /** Every attempt before (i, a) in probing order. */
  ghost predicate FailsBefore(retries: nat, net: (nat, nat) -> ProbeOutcome, i: nat, a: nat) {
    forall i': nat, a': nat :: a' < retries && (i' < i || (i' == i && a' < a)) ==> net(i', a') != OkResponse
  }

  lemma {:induction false} FirstOkFrom(urls: seq<string>, retries: nat, net: (nat, nat) -> ProbeOutcome,
                                        i: nat, a: nat, wi: nat, wa: nat)
    requires wi < |urls| && wa < retries && net(wi, wa) == OkResponse
    requires FailsBefore(retries, net, wi, wa)
    requires i < wi || (i == wi && a <= wa)
    requires a <= retries
    ensures ProbeFrom(urls, retries, net, i, a).winner == Some(wi)
    ensures |ProbeFrom(urls, retries, net, i, a).effects| > 0
    ensures ProbeFrom(urls, retries, net, i, a).effects[|ProbeFrom(urls, retries, net, i, a).effects| - 1] == Probe(urls[wi])
    decreases |urls| - i, retries - a
  {
    if a == retries {
      FirstOkFrom(urls, retries, net, i + 1, 0, wi, wa);
    } else if !(i == wi && a == wa) {
      assert net(i, a) != OkResponse;
      var rest := ProbeFrom(urls, retries, net, i, a + 1);
      FirstOkFrom(urls, retries, net, i, a + 1, wi, wa);
      var e := AttemptEffects(urls[i], net(i, a), a, retries) + rest.effects;
      assert ProbeFrom(urls, retries, net, i, a) == ProbeRun(rest.winner, e);
      assert e[|e| - 1] == rest.effects[|rest.effects| - 1];
    }
  }

  /** The first OK reply wins: nothing is probed after it. */
  lemma FirstOkWins(urls: seq<string>, retries: nat, net: (nat, nat) -> ProbeOutcome, wi: nat, wa: nat)
    requires wi < |urls| && wa < retries && net(wi, wa) == OkResponse
    requires FailsBefore(retries, net, wi, wa)
    ensures ProbeFrom(urls, retries, net, 0, 0).winner == Some(wi)
    ensures var e := ProbeFrom(urls, retries, net, 0, 0).effects; e != [] && e[|e| - 1] == Probe(urls[wi])
  {
    FirstOkFrom(urls, retries, net, 0, 0, wi, wa);
  }

  // ------------------------------------------------------------- requests

  /** The abstract state of a `WhisperAPI` instance. */
  datatype ClientState = ClientState(
    hostname: string, baseURL: string, healthURL: string,
    connectionTested: bool, cache: map<string, J>)

  function InitialState(host: string): (s: ClientState)
    ensures !s.connectionTested && s.cache == map[]
    ensures s.healthURL == HealthUrlOf(InitialOrigin(host))
  {
    ClientState(host, InitialOrigin(host) + "/api/v1", HealthUrlOf(InitialOrigin(host)), false, map[])
  }

  /** The outcome of `testConnection` on a state. */
  datatype Probed = Probed(state: ClientState, connected: bool, effects: seq<Effect>)

  function TestConnectionSpec(s: ClientState, retries: nat, net: (nat, nat) -> ProbeOutcome): (p: Probed)
    ensures p.state.connectionTested == s.connectionTested && p.state.cache == s.cache
  {
    var urls := TestUrls(s.hostname, s.healthURL);
    var run := ProbeFrom(urls, retries, net, 0, 0);
    match run.winner
    case Some(w) =>
      Probed(s.(healthURL := urls[w], baseURL := ApiBaseAsWritten(urls[w])), true, run.effects)
    case None => Probed(s, false, run.effects)
  }

  /** `!options.method || options.method === 'GET'` (an empty method means none was given). */
  predicate IsGet(verb: string) { verb == "" || verb == "GET" }

  function CacheKey(verb: string, url: string): string {
    (if verb == "" then "GET" else verb) + "-" + url
  }

  /** The server's non-empty `error` field, else the status line. */
  function HttpErrorMessage(status: nat, statusText: string, body: Result<J, string>): (m: string)
    ensures body.Ok? && Field(body.value, "error").JStr? && Field(body.value, "error").s != [] ==>
      m == Field(body.value, "error").s
    ensures body.Err? ==> m == "HTTP " + NatToString(status) + ": " + statusText
  {
    if body.Ok? && Field(body.value, "error").JStr? && Field(body.value, "error").s != [] then
      Field(body.value, "error").s
    else "HTTP " + NatToString(status) + ": " + statusText
  }

  /** A rejection the client treats as the network being gone. */
  predicate IsNetworkTypeError(name: string, message: string) {
    name == "TypeError" && Contains(message, "fetch")
  }

  const NotAccessible := "Backend service is not accessible"

  function NetworkErrorMessage(url: string): string {
    "Network error: Cannot connect to backend at " + url
  }

  datatype Step = Step(state: ClientState, result: Result<J, string>, effects: seq<Effect>)

  /** The request proper, once the connection is known to be tested. */
  function SendSpec(s: ClientState, endpoint: string, verb: string, payload: Payload, fetch: FetchOutcome): Step {
    var url := s.baseURL + endpoint;
    var key := CacheKey(verb, url);
    if IsGet(verb) && key in s.cache then Step(s, Ok(s.cache[key]), [])
    else
      var sent := [Fetch(if verb == "" then "GET" else verb, url, payload)];
      match fetch
      case Rejected(name, message) =>
        if IsNetworkTypeError(name, message) then
          Step(s.(connectionTested := false), Err(NetworkErrorMessage(url)), sent)
        else Step(s, Err(message), sent)
      case Responded(ok, status, statusText, body) =>
        if !ok then Step(s, Err(HttpErrorMessage(status, statusText, body)), sent)
        else if body.Err? then Step(s, Err(body.error), sent)
        else if IsGet(verb) then Step(s.(cache := s.cache[key := body.value]), Ok(body.value), sent)
        else Step(s, Ok(body.value), sent)
  }

  /** `request(endpoint, options)`: connection test when not yet memoised, then the request. */
  function RequestSpec(s: ClientState, endpoint: string, verb: string, payload: Payload,
                       net: (nat, nat) -> ProbeOutcome, fetch: FetchOutcome): Step
  {
    if s.connectionTested then SendSpec(s, endpoint, verb, payload, fetch)
    else
      var p := TestConnectionSpec(s, DefaultRetries, net);
      if !p.connected then Step(p.state, Err(NotAccessible), p.effects)
      else
        var sent := SendSpec(p.state.(connectionTested := true), endpoint, verb, payload, fetch);
        Step(sent.state, sent.result, p.effects + sent.effects)
  }

  /** Once the connection is tested, a request probes nothing: at most its own fetch. */
  lemma MemoisedRequestDoesNotProbe(s: ClientState, endpoint: string, verb: string, payload: Payload,
                                    net: (nat, nat) -> ProbeOutcome, fetch: FetchOutcome)
    requires s.connectionTested
    ensures var st := RequestSpec(s, endpoint, verb, payload, net, fetch);
      |st.effects| <= 1 && WaitCount(st.effects) == 0 &&
      (st.effects != [] ==> st.effects[0].url == s.baseURL + endpoint)
  {
  }

  /** A failed connection test ends the request before its own fetch. */
  lemma UnreachableBackend(s: ClientState, endpoint: string, verb: string, payload: Payload,
                           net: (nat, nat) -> ProbeOutcome, fetch: FetchOutcome)
    requires !s.connectionTested
    requires NoneOk(TestUrls(s.hostname, s.healthURL), DefaultRetries, net)
    ensures var st := RequestSpec(s, endpoint, verb, payload, net, fetch);
      st.result == Err(NotAccessible) && st.state == s &&
      Fetched(st.effects) == RepeatEach(TestUrls(s.hostname, s.healthURL), DefaultRetries)
  {
    AllProbesFail(TestUrls(s.hostname, s.healthURL), DefaultRetries, net);
  }

  /** A GET that succeeded is answered from the cache the next time, with no fetch. */
  lemma {:induction false} RepeatedGetServedFromCache(s: ClientState, endpoint: string, verb: string,
                                   net: (nat, nat) -> ProbeOutcome, fetch: FetchOutcome,
                                   net2: (nat, nat) -> ProbeOutcome, fetch2: FetchOutcome)
    requires IsGet(verb)
    requires RequestSpec(s, endpoint, verb, NoBody, net, fetch).result.Ok?
    ensures var first := RequestSpec(s, endpoint, verb, NoBody, net, fetch);
      var second := RequestSpec(first.state, endpoint, verb, NoBody, net2, fetch2);
      second.result == first.result && second.effects == [] && second.state == first.state &&
      CacheKey(verb, first.state.baseURL + endpoint) in first.state.cache
  {
    var first := RequestSpec(s, endpoint, verb, NoBody, net, fetch);
    var t := if s.connectionTested then s else TestConnectionSpec(s, DefaultRetries, net).state.(connectionTested := true);
    assert first.state.baseURL == t.baseURL;
    assert first.state.connectionTested;
  }

  /** The connection test looks at the host and the health URL only. */
  lemma TestConnectionIgnoresCache(s: ClientState, retries: nat, net: (nat, nat) -> ProbeOutcome, other: map<string, J>)
    ensures var p := TestConnectionSpec(s, retries, net);
      var p' := TestConnectionSpec(s.(cache := other), retries, net);
      p'.state == p.state.(cache := other) && p'.connected == p.connected && p'.effects == p.effects
  {
  }

  lemma SendNonGet(s: ClientState, endpoint: string, verb: string, payload: Payload, fetch: FetchOutcome, other: map<string, J>)
    requires !IsGet(verb)
    ensures var st := SendSpec(s, endpoint, verb, payload, fetch);
      var st' := SendSpec(s.(cache := other), endpoint, verb, payload, fetch);
      st.state.cache == s.cache && st'.result == st.result && st'.effects == st.effects
  {
  }

  /** A request that is not a GET neither reads nor writes the cache. */
  lemma NonGetBypassesCache(s: ClientState, endpoint: string, verb: string, payload: Payload,
                            net: (nat, nat) -> ProbeOutcome, fetch: FetchOutcome, other: map<string, J>)
    requires !IsGet(verb)
    ensures var st := RequestSpec(s, endpoint, verb, payload, net, fetch);
      var st' := RequestSpec(s.(cache := other), endpoint, verb, payload, net, fetch);
      st.state.cache == s.cache && st'.result == st.result && st'.effects == st.effects
  {
    if s.connectionTested {
      SendNonGet(s, endpoint, verb, payload, fetch, other);
    } else {
      var p := TestConnectionSpec(s, DefaultRetries, net);
      TestConnectionIgnoresCache(s, DefaultRetries, net, other);
      var t := p.state.(connectionTested := true);
      SendNonGet(t, endpoint, verb, payload, fetch, other);
      assert TestConnectionSpec(s.(cache := other), DefaultRetries, net).state.(connectionTested := true) == t.(cache := other);
    }
  }

  /** A non-OK reply fails with the server's message and leaves the memo and the cache as they were. */
  lemma HttpErrorKeepsState(s: ClientState, endpoint: string, verb: string, payload: Payload,
                            net: (nat, nat) -> ProbeOutcome, status: nat, statusText: string, body: Result<J, string>)
    requires s.connectionTested
    requires !(IsGet(verb) && CacheKey(verb, s.baseURL + endpoint) in s.cache)
    ensures var st := RequestSpec(s, endpoint, verb, payload, net, Responded(false, status, statusText, body));
      st.result == Err(HttpErrorMessage(status, statusText, body)) && st.state == s
  {
  }

  /** A network `TypeError` clears the memo, so the next request tests the connection again. */
  lemma NetworkErrorResetsMemo(s: ClientState, endpoint: string, verb: string, payload: Payload,
                               net: (nat, nat) -> ProbeOutcome, message: string)
    requires s.connectionTested
    requires Contains(message, "fetch")
    requires !(IsGet(verb) && CacheKey(verb, s.baseURL + endpoint) in s.cache)
    ensures var st := RequestSpec(s, endpoint, verb, payload, net, Rejected("TypeError", message));
      st.result == Err(NetworkErrorMessage(s.baseURL + endpoint)) &&
      !st.state.connectionTested && st.state.cache == s.cache
  {
  }

  /** A POST that succeeded ends with its own fetch, to the base URL the client then holds. */
  lemma PostEndsWithItsFetch(s: ClientState, endpoint: string, payload: Payload,
                             net: (nat, nat) -> ProbeOutcome, fetch: FetchOutcome)
    ensures var st := RequestSpec(s, endpoint, "POST", payload, net, fetch);
      st.result.Ok? ==>
        st.effects != [] && st.effects[|st.effects| - 1] == Fetch("POST", st.state.baseURL + endpoint, payload)
  {
  }

  // ------------------------------------------------------ request builders

  /** The multipart form of `transcribeAudio`. */
  function TranscribeForm(file: UploadFile, language: string, task: string, targetLanguage: string): (f: seq<(string, FormValue)>)
    ensures |f| >= 2 && f[0] == ("audio", FileValue(file))
    ensures ("task", Text(task)) in f
    ensures (exists v :: ("language", v) in f) <==> language != []
    ensures (exists v :: ("target_language", v) in f) <==> (task == "translate" && targetLanguage != [])
    ensures ("language", Text(language)) in f <==> language != []
    ensures ("target_language", Text(targetLanguage)) in f <==> (task == "translate" && targetLanguage != [])
  {
    [("audio", FileValue(file))]
    + (if language != [] then [("language", Text(language))] else [])
    + [("task", Text(task))]
    + (if task == "translate" && targetLanguage != [] then [("target_language", Text(targetLanguage))] else [])
  }

  /** The form carries exactly one task, the one asked for. */
  lemma TranscribeFormTask(file: UploadFile, language: string, task: string, targetLanguage: string, v: FormValue)
    ensures ("task", v) in TranscribeForm(file, language, task, targetLanguage) <==> v == Text(task)
  {
  }

  /** The JSON body of `translateText`. */
  function TranslateBody(text: J, targetLanguage: string): (j: J)
    ensures Field(j, "text") == text && Field(j, "target_language") == JStr(targetLanguage)
  {
    JObj(map["text" := text, "target_language" := JStr(targetLanguage)])
  }

  /**
   * `translateText(text, targetLanguage)`: `text.length` is read first, for
   * the log line, so an `undefined` or `null` text throws before anything is
   * sent; any other text is POSTed to `/translate` with the target.
   */
  function TranslateSpec(s: ClientState, text: JsVal, targetLanguage: string,
                         net: (nat, nat) -> ProbeOutcome, fetch: FetchOutcome): Step
  {
    var length := Prop(text, "length");
    if length.Err? then Step(s, Err(length.error), [])
    else RequestSpec(s, "/translate", "POST", JsonBody(TranslateBody(text.j, targetLanguage)), net, fetch)
  }

  /**
   * A missing text fails with the browser's message, sends nothing and
   * leaves the client alone; a present one, on success, was POSTed last as
   * the JSON body with the target; the cache is never touched.
   */
  lemma TranslateSendsOnlyPresentText(s: ClientState, text: JsVal, targetLanguage: string,
                                      net: (nat, nat) -> ProbeOutcome, fetch: FetchOutcome)
    ensures var st := TranslateSpec(s, text, targetLanguage, net, fetch);
      st.state.cache == s.cache &&
      (text == Undefined || text == Val(JNull) ==>
         st.effects == [] && st.state == s && st.result.Err? &&
         st.result.error == ReadError(if text == Undefined then "undefined" else "null", "length")) &&
      (text != Undefined && text != Val(JNull) && st.result.Ok? ==>
         st.effects != [] &&
         st.effects[|st.effects| - 1] ==
           Fetch("POST", st.state.baseURL + "/translate", JsonBody(TranslateBody(text.j, targetLanguage))))
  {
    if text != Undefined && text != Val(JNull) {
      var body := JsonBody(TranslateBody(text.j, targetLanguage));
      PostEndsWithItsFetch(s, "/translate", body, net, fetch);
      NonGetBypassesCache(s, "/translate", "POST", body, net, fetch, s.cache);
    }
  }

  // ------------------------------------------------------------ the class

  class WhisperAPI {
    var hostname: string
    var baseURL: string
    var healthURL: string
    var connectionTested: bool
    var cache: map<string, J>

    function State(): ClientState
      reads this
    {
      ClientState(hostname, baseURL, healthURL, connectionTested, cache)
    }

    constructor (host: string)
      ensures State() == InitialState(host)
    {
      hostname := host;
      baseURL := InitialOrigin(host) + "/api/v1";
      healthURL := HealthUrlOf(InitialOrigin(host));
      connectionTested := false;
      cache := map[];
    }

    /** `testConnection(retries)`: probe every candidate up to `retries` times. */
    method TestConnection(retries: nat, net: (nat, nat) -> ProbeOutcome) returns (connected: bool, effects: seq<Effect>)
      modifies this
      ensures Probed(State(), connected, effects) == TestConnectionSpec(old(State()), retries, net)
    {
      var urls := TestUrls(hostname, healthURL);
      ghost var run := ProbeFrom(urls, retries, net, 0, 0);
      effects := [];
      var i := 0;
      while i < |urls|
        invariant 0 <= i <= |urls|
        invariant run == Prepend(effects, ProbeFrom(urls, retries, net, i, 0))
        invariant State() == old(State())
      {
        var attempt := 0;
        while attempt < retries
          invariant 0 <= attempt <= retries
          invariant run == Prepend(effects, ProbeFrom(urls, retries, net, i, attempt))
          invariant State() == old(State())
        {
          var outcome := net(i, attempt);
          if outcome == OkResponse {
            effects := effects + [Probe(urls[i])];
            healthURL := urls[i];
            baseURL := ApiBaseAsWritten(urls[i]);
            connected := true;
            return;
          }
          var step := AttemptEffects(urls[i], outcome, attempt, retries);
          PrependPrepend(effects, step, ProbeFrom(urls, retries, net, i, attempt + 1));
          effects := effects + step;
          attempt := attempt + 1;
        }
        assert ProbeFrom(urls, retries, net, i, attempt) == ProbeFrom(urls, retries, net, i + 1, 0);
        i := i + 1;
      }
      connected := false;
    }

    /** `request(endpoint, options)` with the method, the body, and the network as oracles. */
    method Request(endpoint: string, verb: string, payload: Payload,
                   net: (nat, nat) -> ProbeOutcome, fetch: FetchOutcome)
      returns (result: Result<J, string>, effects: seq<Effect>)
      modifies this
      ensures Step(State(), result, effects) == RequestSpec(old(State()), endpoint, verb, payload, net, fetch)
    {
      var probes := [];
      if !connectionTested {
        var connected;
        connected, probes := TestConnection(DefaultRetries, net);
        if !connected {
          result, effects := Err(NotAccessible), probes;
          return;
        }
        connectionTested := true;
      }
      var sent;
      result, sent := Send(endpoint, verb, payload, fetch);
      effects := probes + sent;
    }

    /** The request proper, once the connection test has been passed. */
    method Send(endpoint: string, verb: string, payload: Payload, fetch: FetchOutcome)
      returns (result: Result<J, string>, effects: seq<Effect>)
      modifies this
      ensures Step(State(), result, effects) == SendSpec(old(State()), endpoint, verb, payload, fetch)
    {
      var url := baseURL + endpoint;
      var key := CacheKey(verb, url);
      if IsGet(verb) && key in cache {
        result, effects := Ok(cache[key]), [];
        return;
      }
      effects := [Fetch(if verb == "" then "GET" else verb, url, payload)];
      match fetch {
        case Rejected(name, message) =>
          if IsNetworkTypeError(name, message) {
            connectionTested := false;
            result := Err(NetworkErrorMessage(url));
          } else {
            result := Err(message);
          }
        case Responded(ok, status, statusText, body) =>
          if !ok {
            result := Err(HttpErrorMessage(status, statusText, body));
          } else if body.Err? {
            result := Err(body.error);
          } else {
            if IsGet(verb) {
              cache := cache[key := body.value];
            }
            result := Ok(body.value);
          }
      }
    }

    /** `transcribeAudio(file, language, task, targetLanguage)`: a multipart POST to /transcribe. */
    method TranscribeAudio(file: UploadFile, language: string, task: string, targetLanguage: string,
                           net: (nat, nat) -> ProbeOutcome, fetch: FetchOutcome)
      returns (result: Result<J, string>, effects: seq<Effect>)
      modifies this
      ensures Step(State(), result, effects) ==
        RequestSpec(old(State()), "/transcribe", "POST", Form(TranscribeForm(file, language, task, targetLanguage)), net, fetch)
      ensures State().cache == old(State().cache)
    {
      ghost var s0 := State();
      result, effects := Request("/transcribe", "POST", Form(TranscribeForm(file, language, task, targetLanguage)), net, fetch);
      NonGetBypassesCache(s0, "/transcribe", "POST", Form(TranscribeForm(file, language, task, targetLanguage)), net, fetch, s0.cache);
    }

    /** `translateText(text, targetLanguage)`: a JSON POST to /translate. */
    method TranslateText(text: JsVal, targetLanguage: string, net: (nat, nat) -> ProbeOutcome, fetch: FetchOutcome)
      returns (result: Result<J, string>, effects: seq<Effect>)
      modifies this
      ensures Step(State(), result, effects) == TranslateSpec(old(State()), text, targetLanguage, net, fetch)
      ensures State().cache == old(State().cache)
    {
      var length := Prop(text, "length");
      if length.Err? {
        return Err(length.error), [];
      }
      ghost var s0 := State();
      result, effects := Request("/translate", "POST", JsonBody(TranslateBody(text.j, targetLanguage)), net, fetch);
      NonGetBypassesCache(s0, "/translate", "POST", JsonBody(TranslateBody(text.j, targetLanguage)), net, fetch, s0.cache);
    }

    /**
     * `checkHealth()`: a GET of the health URL; any failure runs the
     * connection test and is reported either as unreachable or with the
     * original failure's message.
     */
    method CheckHealth(fetch: FetchOutcome, net: (nat, nat) -> ProbeOutcome)
      returns (result: Result<J, string>, effects: seq<Effect>)
      modifies this
      ensures effects != [] && effects[0] == Probe(old(healthURL))
      ensures result.Ok? <==> fetch.Responded? && fetch.ok && fetch.body.Ok?
      ensures result.Ok? ==> result.value == fetch.body.value && State() == old(State())
      ensures result.Err? ==>
        var p := TestConnectionSpec(old(State()), DefaultRetries, net);
        State() == p.state && effects == [Probe(old(healthURL))] + p.effects &&
        result.error == (if !p.connected then "Backend service is not accessible." else "Backend health check failed: " + HealthFailure(fetch))
    {
      effects := [Probe(healthURL)];
      if fetch.Responded? && fetch.ok && fetch.body.Ok? {
        result := Ok(fetch.body.value);
        return;
      }
      var connected, probes := TestConnection(DefaultRetries, net);
      effects := effects + probes;
      if !connected {
        result := Err("Backend service is not accessible.");
      } else {
        result := Err("Backend health check failed: " + HealthFailure(fetch));
      }
    }
  }

  /** The message of the failure `checkHealth` caught. */
  function HealthFailure(fetch: FetchOutcome): string {
    match fetch
    case Rejected(_, message) => message
    case Responded(ok, status, _, body) =>
      if !ok then "Health check failed: " + NatToString(status)
      else if body.Err? then body.error
      else ""
  }

  /**
   * A fresh client for a host: two GETs of the same endpoint issue one fetch
   * for the endpoint, and the second answer is the first.
   */
  method TwoGetsFetchOnce(host: string, endpoint: string, net: (nat, nat) -> ProbeOutcome, reply: J, fetch2: FetchOutcome)
    returns (first: Result<J, string>, second: Result<J, string>, secondEffects: seq<Effect>)
    requires exists i: nat, a: nat :: i < |TestUrls(host, HealthUrlOf(InitialOrigin(host)))| && a < DefaultRetries && net(i, a) == OkResponse
    ensures first == Ok(reply) && second == first && secondEffects == []
  {
    var api := new WhisperAPI(host);
    var e1;
    first, e1 := api.Request(endpoint, "GET", NoBody, net, Responded(true, 200, "OK", Ok(reply)));
    ConnectsWhenSomeProbeOk(api.State(), net);
    second, secondEffects := api.Request(endpoint, "GET", NoBody, net, fetch2);
  }

  lemma ConnectsWhenSomeProbeOk(s: ClientState, net: (nat, nat) -> ProbeOutcome)
    requires exists i: nat, a: nat :: i < |TestUrls(s.hostname, s.healthURL)| && a < DefaultRetries && net(i, a) == OkResponse
    ensures TestConnectionSpec(s, DefaultRetries, net).connected
  {
    var urls := TestUrls(s.hostname, s.healthURL);
    var wi, wa := FirstOkIndex(urls, DefaultRetries, net);
    FirstOkWins(urls, DefaultRetries, net, wi, wa);
  }

  /** The first OK attempt in probing order, when there is one. */
  lemma FirstOkIndex(urls: seq<string>, retries: nat, net: (nat, nat) -> ProbeOutcome) returns (wi: nat, wa: nat)
    requires exists i: nat, a: nat :: i < |urls| && a < retries && net(i, a) == OkResponse
    ensures wi < |urls| && wa < retries && net(wi, wa) == OkResponse
    ensures FailsBefore(retries, net, wi, wa)
  {
    var i: nat, a: nat :| i < |urls| && a < retries && net(i, a) == OkResponse;
    wi := 0;
    wa := 0;
    while net(wi, wa) != OkResponse
      invariant wi < |urls| && wa < retries
      invariant wi < i || (wi == i && wa <= a)
      invariant FailsBefore(retries, net, wi, wa)
      decreases i - wi, retries - wa
    {
      if wa + 1 < retries {
        wa := wa + 1;
      } else {
        wi, wa := wi + 1, 0;
      }
    }
  }
}
