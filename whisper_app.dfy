/**
 * The browser application controller (`WhisperApp` in `app.js`): the
 * `state` record it keeps, the one-run-at-a-time transcription flow with
 * its optional second translation step, file selection, reset, and the
 * text-to-speech actions on the current transcript.
 *
 * Only the parts of the page that the controller's logic reads or writes
 * are modelled (`Page`); the backend and the speech service are reached
 * through the `WhisperAPI` and `TTSService` objects with their outcomes as
 * oracles. The 500 ms timer before results are shown is not modelled as a
 * delay: its callback runs at once, and an error it throws lands in
 * `Page.uncaught`, where no `catch` of the run sees it.
 */
module App {
  import opened Wrappers
  import opened Strings
  import opened Http
  import opened Audio
  import opened WhisperApi
  import TtsClient

  /** `this.state`. */
  datatype AppState = AppState(
    currentFile: Option<UploadFile>,
    isProcessing: bool,
    currentTranscription: string,
    currentAudioId: Option<string>,
    ttsAvailable: bool)

  const InitialAppState := AppState(None, false, "", None, false)

  /**
   * What the controller reads from and writes to the page: the three select
   * values ("" when empty), the visibility of the parts it toggles, the
   * progress percentages reported so far, the error messages shown so far,
   * the last result handed to `showResults`, and the messages of errors
   * thrown by timer callbacks, which reach only the browser console.
   */
  datatype Page = Page(
    language: string,
    task: string,
    target: string,
    translateGroupVisible: bool,
    optionsVisible: bool,
    transcribeEnabled: bool,
    progressVisible: bool,
    progress: seq<nat>,
    speakVisible: bool,
    ttsSectionVisible: bool,
    errors: seq<string>,
    shown: Option<J>,
    uncaught: seq<string>)

  /** The page, the application state, the API client's state and the requests sent by one action. */
  datatype AppRun = AppRun(state: AppState, page: Page, client: ClientState, effects: seq<Effect>)

  /** `taskSelect.value || 'transcribe'`. */
  function SelectedTask(p: Page): string {
    if p.task == [] then "transcribe" else p.task
  }

  /** `translateToSelect.value || 'en'`. */
  function SelectedTarget(p: Page): string {
    if p.target == [] then "en" else p.target
  }

  /** `{...v}`: the fields of an object; spreading any other value is modelled as adding nothing. */
  function Spread(v: JsVal): map<string, J> {
    if v.Val? && v.j.JObj? then v.j.fields else map[]
  }

  /** `{...fields, key: v}`: a key whose value is `undefined` reads as absent, so it is left out. */
  function WithProp(fields: map<string, J>, key: string, v: JsVal): map<string, J> {
    if v.Val? then fields[key := v.j] else fields - {key}
  }

  /**
   * The two-step result: the transcription record's fields, with `text`
   * replaced by the translation and the original text, the target and the
   * task added.
   */
  function TwoStepResult(record: JsVal, translated: JsVal, original: JsVal, target: string): (r: J)
    ensures r.JObj?
    ensures Prop(Val(r), "text") == Ok(translated)
    ensures Prop(Val(r), "original_text") == Ok(original)
    ensures Field(r, "target_language") == JStr(target)
    ensures Field(r, "task") == JStr("translate")
    ensures forall k :: k in Spread(record) && k !in ["text", "original_text", "target_language", "task"] ==>
      k in r.fields && r.fields[k] == Spread(record)[k]
  {
    JObj(WithProp(WithProp(Spread(record), "text", translated), "original_text", original)
           ["target_language" := JStr(target)]
           ["task" := JStr("translate")])
  }

  /** `result.text || ''`; a truthy text that is not a string is not modelled and reads as "". */
  function TextOf(text: J): (s: string)
    ensures s != [] ==> Truthy(text) && text == JStr(s)
  {
    if text.JStr? then text.s else ""
  }

  // ---------------------------------------------------------- showResults

  /** The state part of `showResults(result)`. */
  function ShowResultsSpec(st: AppState, p: Page, result: J): (AppState, Page) {
    var text := Field(result, "text");
    (st.(currentTranscription := TextOf(text)),
     p.(progressVisible := false,
        speakVisible := if st.ttsAvailable && Truthy(text) then true else p.speakVisible,
        shown := Some(result)))
  }

  /**
   * The transcript becomes the result's text; the speak button is shown only
   * when speech is available and there is text, and is never hidden here.
   */
  lemma ShowResultsSetsTranscript(st: AppState, p: Page, result: J)
    ensures var (st', p') := ShowResultsSpec(st, p, result);
      st'.currentTranscription == TextOf(Field(result, "text")) &&
      st'.currentFile == st.currentFile && st'.currentAudioId == st.currentAudioId &&
      st'.isProcessing == st.isProcessing && st'.ttsAvailable == st.ttsAvailable &&
      p'.shown == Some(result) && !p'.progressVisible &&
      (p'.speakVisible <==> p.speakVisible || (st.ttsAvailable && Truthy(Field(result, "text"))))
  {
  }

  // ---------------------------------------------------- startTranscription

  /** The `catch` of `startTranscription`: the error is shown and the options come back. */
  function FailSpec(st: AppState, p: Page, message: string): (p': Page)
    ensures p'.errors == p.errors + ["Transcription failed: " + message]
    ensures p'.shown == p.shown && p'.progress == p.progress && !p'.progressVisible
  {
    p.(errors := p.errors + ["Transcription failed: " + message],
       progressVisible := false,
       optionsVisible := true,
       transcribeEnabled := st.currentFile.Some?)
  }

  /** The form the first request of `startTranscription` sends. */
  function TranscribeRequest(file: UploadFile, language: string, task: string, target: string): Payload {
    Form(TranscribeForm(file, language, task, target))
  }

  /**
   * `transcribeResult.result.text`, the text the first step hands to
   * `translateText`; `undefined` when it cannot be read, in which case the
   * run has failed before the second step.
   */
  function TranscribedText(t: Step): JsVal {
    if t.result.Ok? && ReadPath(Val(t.result.value), "result", "text").Ok?
    then ReadPath(Val(t.result.value), "result", "text").value
    else Undefined
  }

  /**
   * Task `translate` once its requests have settled: `t` is the
   * transcription request, `u` the `translateText` call (consulted only
   * when the run gets that far). 50 is reported as soon as the
   * transcription returned, before its `result.text` is read.
   */
  function TwoStepOutcome(st: AppState, p: Page, t: Step, target: string, u: Step): AppRun {
    var p1 := p.(progress := p.progress + [25]);
    if t.result.Err? then AppRun(st, FailSpec(st, p1, t.result.error), t.state, t.effects)
    else
      var p2 := p1.(progress := p1.progress + [50]);
      var text := ReadPath(Val(t.result.value), "result", "text");
      if text.Err? then AppRun(st, FailSpec(st, p2, text.error), t.state, t.effects)
      else TranslationOutcome(st, p2, t.effects, Prop(Val(t.result.value), "result").value, text.value, target, u)
  }

  /**
   * The second step of task `translate`, once the transcription came back
   * with the record `record` whose text is `original`.
   */
  function TranslationOutcome(st: AppState, p: Page, before: seq<Effect>, record: JsVal, original: JsVal,
                              target: string, u: Step): AppRun
  {
    if u.result.Err? then AppRun(st, FailSpec(st, p, u.result.error), u.state, before + u.effects)
    else
      var translated := ReadPath(Val(u.result.value), "result", "translated_text");
      if translated.Err? then AppRun(st, FailSpec(st, p, translated.error), u.state, before + u.effects)
      else
        var result := TwoStepResult(record, translated.value, original, target);
        var shown := ShowResultsSpec(st, p.(progress := p.progress + [100]), result);
        AppRun(shown.0, shown.1, u.state, before + u.effects)
  }

  /** `whisper_translate` asks Whisper itself to translate; every other task transcribes. */
  function WhisperTask(task: string): (w: string)
    ensures w == "translate" <==> task == "whisper_translate"
    ensures w == "translate" || w == "transcribe"
  {
    if task == "whisper_translate" then "translate" else "transcribe"
  }

  /**
   * Any other task once its one request has settled to `t`: 100 is
   * reported and the timer shows `result.result || result`. For a `null`
   * reply that read throws inside the timer's callback, after the run has
   * ended, so nothing is shown and no error either.
   */
  function DirectOutcome(st: AppState, p: Page, t: Step): AppRun {
    if t.result.Err? then AppRun(st, FailSpec(st, p, t.result.error), t.state, t.effects)
    else
      var p1 := p.(progress := p.progress + [100]);
      var inner := Prop(Val(t.result.value), "result");
      if inner.Err? then AppRun(st, p1.(uncaught := p1.uncaught + [inner.error]), t.state, t.effects)
      else
        var result := if inner.value.Val? && Truthy(inner.value.j) then inner.value.j else t.result.value;
        var shown := ShowResultsSpec(st, p1, result);
        AppRun(shown.0, shown.1, t.state, t.effects)
  }

  /** The form of the first request: task `translate` asks Whisper to transcribe only. */
  function FirstRequest(file: UploadFile, p: Page): Payload {
    if SelectedTask(p) == "translate" then TranscribeRequest(file, p.language, "transcribe", "")
    else TranscribeRequest(file, p.language, WhisperTask(SelectedTask(p)), SelectedTarget(p))
  }

  /** The page while a run is in progress: button disabled, progress shown at 0. */
  function BusyPage(p: Page): (p': Page)
    ensures p'.errors == p.errors && p'.shown == p.shown && p'.uncaught == p.uncaught && p'.progress == p.progress + [0]
    ensures p'.language == p.language && p'.task == p.task && p'.target == p.target
  {
    p.(transcribeEnabled := false, progressVisible := true, optionsVisible := false, progress := p.progress + [0])
  }

  /** The `finally` of `startTranscription`: not processing any more, button enabled. */
  function Release(r: AppRun): (r': AppRun)
    ensures !r'.state.isProcessing && r'.page.transcribeEnabled
    ensures r'.page.errors == r.page.errors && r'.page.progress == r.page.progress && r'.page.shown == r.page.shown
    ensures r'.page.uncaught == r.page.uncaught && r'.page.progressVisible == r.page.progressVisible
    ensures r'.effects == r.effects && r'.client == r.client
  {
    AppRun(r.state.(isProcessing := false), r.page.(transcribeEnabled := true), r.client, r.effects)
  }

  /**
   * `startTranscription()` with its requests already settled (`t` the
   * first, `u` the translation request of task `translate`); `c` is the API
   * client's state, which a run that does not start leaves alone.
   */
  function StartWith(st: AppState, p: Page, c: ClientState, t: Step, u: Step): AppRun {
    if st.currentFile.None? || st.isProcessing then AppRun(st, p, c, [])
    else
      var busy := st.(isProcessing := true);
      var r := if SelectedTask(p) == "translate" then TwoStepOutcome(busy, BusyPage(p), t, SelectedTarget(p), u)
               else DirectOutcome(busy, BusyPage(p), t);
      Release(r)
  }

  /** `startTranscription()`: the first request from the client state `c`, the translation from the state it leaves. */
  function StartSpec(st: AppState, p: Page, c: ClientState,
                     net1: (nat, nat) -> ProbeOutcome, fetch1: FetchOutcome,
                     net2: (nat, nat) -> ProbeOutcome, fetch2: FetchOutcome): AppRun
  {
    if st.currentFile.None? then AppRun(st, p, c, [])
    else
      var t := RequestSpec(c, "/transcribe", "POST", FirstRequest(st.currentFile.value, p), net1, fetch1);
      var u := TranslateSpec(t.state, TranscribedText(t), SelectedTarget(p), net2, fetch2);
      StartWith(st, p, c, t, u)
  }

  /** Without a file, or while a run is in progress, `startTranscription` does nothing. */
  lemma StartGuard(st: AppState, p: Page, c: ClientState,
                   net1: (nat, nat) -> ProbeOutcome, fetch1: FetchOutcome,
                   net2: (nat, nat) -> ProbeOutcome, fetch2: FetchOutcome)
    requires st.currentFile.None? || st.isProcessing
    ensures StartSpec(st, p, c, net1, fetch1, net2, fetch2) == AppRun(st, p, c, [])
  {
  }

  /**
   * A run that starts always ends with `isProcessing` false and the button
   * enabled, whatever the requests settled to; the file, the audio id and
   * the speech availability are untouched.
   */
  lemma StartAlwaysReleases(st: AppState, p: Page, c: ClientState, t: Step, u: Step)
    requires st.currentFile.Some? && !st.isProcessing
    ensures var r := StartWith(st, p, c, t, u);
      !r.state.isProcessing && r.page.transcribeEnabled &&
      r.state.currentFile == st.currentFile && r.state.currentAudioId == st.currentAudioId &&
      r.state.ttsAvailable == st.ttsAvailable
  {
    OutcomeSettles(st.(isProcessing := true), BusyPage(p), t, u, SelectedTask(p) == "translate", SelectedTarget(p));
  }

  /**
   * Every run that starts ends one of three ways: a result is shown; or
   * exactly one `Transcription failed: …` error is added, nothing is handed
   * to `showResults` and the transcript is kept; or, for a direct task whose
   * reply is `null`, the timer's read throws where nothing catches it, so no
   * error is shown, nothing is shown and the progress stays on screen.
   */
  lemma StartFailsShowsOrEscapes(st: AppState, p: Page, c: ClientState, t: Step, u: Step)
    requires st.currentFile.Some? && !st.isProcessing
    ensures var r := StartWith(st, p, c, t, u);
      (r.page.errors == p.errors && r.page.uncaught == p.uncaught ==>
         r.page.shown.Some? && r.state.currentTranscription == TextOf(Field(r.page.shown.value, "text")) &&
         !r.page.progressVisible) &&
      (r.page.errors != p.errors ==>
         |r.page.errors| == |p.errors| + 1 && r.page.errors[..|p.errors|] == p.errors &&
         StartsWith(r.page.errors[|p.errors|], "Transcription failed: ") &&
         r.page.uncaught == p.uncaught &&
         r.page.shown == p.shown && r.state.currentTranscription == st.currentTranscription &&
         !r.page.progressVisible && r.page.optionsVisible) &&
      (r.page.uncaught != p.uncaught ==>
         SelectedTask(p) != "translate" && t.result == Ok(JNull) &&
         r.page.uncaught == p.uncaught + [ReadError("null", "result")] &&
         r.page.errors == p.errors && r.page.shown == p.shown &&
         r.state.currentTranscription == st.currentTranscription && r.page.progressVisible)
  {
    var busy := st.(isProcessing := true);
    OutcomeSettles(busy, BusyPage(p), t, u, SelectedTask(p) == "translate", SelectedTarget(p));
    if SelectedTask(p) == "translate" {
      TwoStepSummary(busy, BusyPage(p), t, SelectedTarget(p), u);
    } else {
      DirectSummary(busy, BusyPage(p), t);
    }
  }

  /**
   * The ways an outcome can end: a result shown, exactly one failure message
   * added, or the `null`-reply error thrown outside the run; each leaves the
   * rest of the state as stated.
   */
  predicate Settles(st: AppState, p: Page, r: AppRun) {
    (r.page.errors == p.errors && r.page.uncaught == p.uncaught ==>
       r.page.shown.Some? && r.state == st.(currentTranscription := TextOf(Field(r.page.shown.value, "text"))) &&
       !r.page.progressVisible) &&
    (r.page.errors != p.errors ==>
       |r.page.errors| == |p.errors| + 1 && r.page.errors[..|p.errors|] == p.errors &&
         StartsWith(r.page.errors[|p.errors|], "Transcription failed: ") &&
       r.page.uncaught == p.uncaught &&
       r.page.shown == p.shown && r.state == st && !r.page.progressVisible && r.page.optionsVisible) &&
    (r.page.uncaught != p.uncaught ==>
       r.page.uncaught == p.uncaught + [ReadError("null", "result")] && r.page.errors == p.errors &&
       r.page.shown == p.shown && r.state == st && r.page.progressVisible == p.progressVisible)
  }

  lemma FailKeepsState(st: AppState, p: Page, message: string)
    ensures var p' := FailSpec(st, p, message);
      p'.errors != p.errors && |p'.errors| == |p.errors| + 1 && p'.errors[..|p.errors|] == p.errors &&
      StartsWith(p'.errors[|p.errors|], "Transcription failed: ") &&
      p'.shown == p.shown && p'.uncaught == p.uncaught && !p'.progressVisible && p'.optionsVisible
  {
    var p' := FailSpec(st, p, message);
    assert p'.errors[|p.errors|] == "Transcription failed: " + message;
  }

  lemma ShowKeepsErrors(st: AppState, p: Page, result: J)
    ensures var (st', p') := ShowResultsSpec(st, p, result);
      p'.errors == p.errors && p'.uncaught == p.uncaught && p'.shown == Some(result) && !p'.progressVisible &&
      st' == st.(currentTranscription := TextOf(Field(result, "text")))
  {
  }

  lemma OutcomeSettles(st: AppState, p: Page, t: Step, u: Step, twoStep: bool, target: string)
    ensures Settles(st, p, if twoStep then TwoStepOutcome(st, p, t, target, u) else DirectOutcome(st, p, t))
  {
    if twoStep {
      TwoStepFailsOrShows(st, p, t, target, u);
    } else {
      DirectFailsShowsOrEscapes(st, p, t);
    }
  }

  /** Task `translate` shows a result or adds one failure; nothing it does escapes the run. */
  lemma TwoStepFailsOrShows(st: AppState, p: Page, t: Step, target: string, u: Step)
    ensures var r := TwoStepOutcome(st, p, t, target, u);
      Settles(st, p, r) && r.page.uncaught == p.uncaught
  {
    var p1 := p.(progress := p.progress + [25]);
    if t.result.Err? {
      FailKeepsState(st, p1, t.result.error);
    } else {
      var p2 := p1.(progress := p1.progress + [50]);
      var text := ReadPath(Val(t.result.value), "result", "text");
      if text.Err? {
        FailKeepsState(st, p2, text.error);
      } else {
        TranslationFailsOrShows(st, p2, t.effects, Prop(Val(t.result.value), "result").value, text.value, target, u);
      }
    }
  }

  lemma TranslationFailsOrShows(st: AppState, p: Page, before: seq<Effect>, record: JsVal, original: JsVal,
                                target: string, u: Step)
    ensures var r := TranslationOutcome(st, p, before, record, original, target, u);
      Settles(st, p, r) && r.page.uncaught == p.uncaught
  {
    if u.result.Err? {
      FailKeepsState(st, p, u.result.error);
    } else {
      var translated := ReadPath(Val(u.result.value), "result", "translated_text");
      if translated.Err? {
        FailKeepsState(st, p, translated.error);
      } else {
        var result := TwoStepResult(record, translated.value, original, target);
        ShowKeepsErrors(st, p.(progress := p.progress + [100]), result);
      }
    }
  }

  lemma DirectFailsShowsOrEscapes(st: AppState, p: Page, t: Step)
    ensures Settles(st, p, DirectOutcome(st, p, t))
  {
    if t.result.Err? {
      FailKeepsState(st, p, t.result.error);
    } else {
      var p1 := p.(progress := p.progress + [100]);
      var inner := Prop(Val(t.result.value), "result");
      if inner.Ok? {
        var result := if inner.value.Val? && Truthy(inner.value.j) then inner.value.j else t.result.value;
        ShowKeepsErrors(st, p1, result);
      }
    }
  }

  /**
   * What a two-step outcome reveals: on success both replies had readable
   * records and the shown result is built from them; on failure progress
   * stopped at 25 when the transcription request failed and at 50 after it
   * returned, and a transcription without a readable text sent nothing more.
   */
  lemma TwoStepSummary(st: AppState, p: Page, t: Step, target: string, u: Step)
    ensures var r := TwoStepOutcome(st, p, t, target, u);
      r.page.uncaught == p.uncaught &&
      (r.page.errors == p.errors ==>
         t.result.Ok? && ReadPath(Val(t.result.value), "result", "text").Ok? &&
         u.result.Ok? && ReadPath(Val(u.result.value), "result", "translated_text").Ok? &&
         r.page.progress == p.progress + [25, 50, 100] && r.effects == t.effects + u.effects && r.client == u.state &&
         r.page.shown == Some(TwoStepResult(Prop(Val(t.result.value), "result").value,
                                            ReadPath(Val(u.result.value), "result", "translated_text").value,
                                            TranscribedText(t), target))) &&
      (r.page.errors != p.errors ==>
         (t.result.Err? ==> r.page.progress == p.progress + [25] && r.effects == t.effects) &&
         (t.result.Ok? ==> r.page.progress == p.progress + [25, 50]) &&
         (t.result.Ok? && ReadPath(Val(t.result.value), "result", "text").Err? ==>
            r.effects == t.effects && r.client == t.state))
  {
    var p1 := p.(progress := p.progress + [25]);
    TwoStepFailsOrShows(st, p, t, target, u);
    if t.result.Err? {
      FailKeepsState(st, p1, t.result.error);
    } else {
      var p2 := p1.(progress := p1.progress + [50]);
      assert p2.progress == p.progress + [25, 50];
      var text := ReadPath(Val(t.result.value), "result", "text");
      if text.Err? {
        FailKeepsState(st, p2, text.error);
      } else {
        TranslationSummary(st, p2, t.effects, Prop(Val(t.result.value), "result").value, text.value, target, u);
      }
    }
  }

  lemma TranslationSummary(st: AppState, p: Page, before: seq<Effect>, record: JsVal, original: JsVal,
                           target: string, u: Step)
    ensures var r := TranslationOutcome(st, p, before, record, original, target, u);
      (r.page.errors == p.errors ==>
         u.result.Ok? && ReadPath(Val(u.result.value), "result", "translated_text").Ok? &&
         r.page.progress == p.progress + [100] && r.effects == before + u.effects && r.client == u.state &&
         r.page.shown == Some(TwoStepResult(record, ReadPath(Val(u.result.value), "result", "translated_text").value,
                                            original, target))) &&
      (r.page.errors != p.errors ==> r.page.progress == p.progress)
  {
    if u.result.Err? {
      FailKeepsState(st, p, u.result.error);
    } else {
      var translated := ReadPath(Val(u.result.value), "result", "translated_text");
      if translated.Err? {
        FailKeepsState(st, p, translated.error);
      } else {
        var result := TwoStepResult(record, translated.value, original, target);
        ShowKeepsErrors(st, p.(progress := p.progress + [100]), result);
      }
    }
  }

  /**
   * What a direct outcome reveals: an error is shown exactly when the
   * request failed, and then progress is unchanged; otherwise 100 is
   * reported, and a `null` reply throws outside the run and changes nothing
   * else.
   */
  lemma DirectSummary(st: AppState, p: Page, t: Step)
    ensures var r := DirectOutcome(st, p, t);
      r.effects == t.effects && r.client == t.state &&
      (r.page.errors != p.errors <==> t.result.Err?) &&
      (r.page.uncaught != p.uncaught <==> t.result == Ok(JNull)) &&
      (t.result.Err? ==> r.page.progress == p.progress) &&
      (t.result.Ok? ==> r.page.progress == p.progress + [100]) &&
      (t.result == Ok(JNull) ==>
         r.page.uncaught == p.uncaught + [ReadError("null", "result")] && r.page.shown == p.shown && r.state == st)
  {
    if t.result.Err? {
      FailKeepsState(st, p, t.result.error);
    } else {
      var p1 := p.(progress := p.progress + [100]);
      var inner := Prop(Val(t.result.value), "result");
      if inner.Ok? {
        var result := if inner.value.Val? && Truthy(inner.value.j) then inner.value.j else t.result.value;
        ShowKeepsErrors(st, p1, result);
      }
    }
  }

  /**
   * Task `translate` reports 0, 25, 50 and then 100 on success; a failure
   * stops at 25 when the transcription request failed, else at 50.
   */
  lemma TranslateProgress(st: AppState, p: Page, c: ClientState, t: Step, u: Step)
    requires st.currentFile.Some? && !st.isProcessing && SelectedTask(p) == "translate"
    ensures var r := StartWith(st, p, c, t, u);
      (r.page.errors == p.errors ==> r.page.progress == p.progress + [0, 25, 50, 100]) &&
      (r.page.errors != p.errors && t.result.Err? ==> r.page.progress == p.progress + [0, 25]) &&
      (r.page.errors != p.errors && t.result.Ok? ==> r.page.progress == p.progress + [0, 25, 50])
  {
    var b := BusyPage(p);
    var x := p.progress;
    assert b.errors == p.errors && b.progress == x + [0];
    var o := TwoStepOutcome(st.(isProcessing := true), b, t, SelectedTarget(p), u);
    var r := Release(o);
    assert StartWith(st, p, c, t, u) == r;
    assert r.page.errors == o.page.errors && r.page.progress == o.page.progress;
    TwoStepSummary(st.(isProcessing := true), b, t, SelectedTarget(p), u);
    if o.page.errors == p.errors {
      assert o.page.progress == (x + [0]) + [25, 50, 100];
      assert (x + [0]) + [25, 50, 100] == x + [0, 25, 50, 100];
    } else if t.result.Err? {
      assert (x + [0]) + [25] == x + [0, 25];
    } else {
      assert (x + [0]) + [25, 50] == x + [0, 25, 50];
    }
  }

  /**
   * Any other task reports 0 and then 100 whenever its request returned,
   * the `null` reply included, and only 0 when it failed.
   */
  lemma DirectProgress(st: AppState, p: Page, c: ClientState, t: Step, u: Step)
    requires st.currentFile.Some? && !st.isProcessing && SelectedTask(p) != "translate"
    ensures var r := StartWith(st, p, c, t, u);
      (t.result.Ok? ==> r.page.progress == p.progress + [0, 100]) &&
      (t.result.Err? ==> r.page.progress == p.progress + [0] && r.page.errors != p.errors)
  {
    DirectSummary(st.(isProcessing := true), BusyPage(p), t);
    assert BusyPage(p).progress + [100] == p.progress + [0, 100];
  }

  /**
   * A successful two-step run shows the transcription's record carrying
   * the translation as `text`, the transcribed text (the text sent for
   * translation) as `original_text`, the target and the task `translate`.
   */
  lemma TwoStepShowsTranslation(st: AppState, p: Page, c: ClientState, t: Step, u: Step)
    requires st.currentFile.Some? && !st.isProcessing && SelectedTask(p) == "translate"
    requires StartWith(st, p, c, t, u).page.errors == p.errors
    ensures var r := StartWith(st, p, c, t, u);
      r.effects == t.effects + u.effects && r.client == u.state &&
      t.result.Ok? && u.result.Ok? && r.page.shown.Some? &&
      Prop(Val(r.page.shown.value), "original_text") == Ok(TranscribedText(t)) &&
      Prop(Val(r.page.shown.value), "text") == ReadPath(Val(u.result.value), "result", "translated_text") &&
      Field(r.page.shown.value, "task") == JStr("translate") &&
      Field(r.page.shown.value, "target_language") == JStr(SelectedTarget(p))
  {
    TwoStepSummary(st.(isProcessing := true), BusyPage(p), t, SelectedTarget(p), u);
  }

  /**
   * Task `translate`: Whisper is asked to transcribe (not to translate), and
   * the text the transcription returned is what goes to `/translate`, last,
   * with the selected target.
   */
  lemma {:induction false} TwoStepFeedsTranslation(st: AppState, p: Page, c: ClientState,
                                 net1: (nat, nat) -> ProbeOutcome, fetch1: FetchOutcome,
                                 net2: (nat, nat) -> ProbeOutcome, fetch2: FetchOutcome)
    requires st.currentFile.Some? && !st.isProcessing && SelectedTask(p) == "translate"
    requires StartSpec(st, p, c, net1, fetch1, net2, fetch2).page.errors == p.errors
    ensures var r := StartSpec(st, p, c, net1, fetch1, net2, fetch2);
      r.page.shown.Some? && |r.effects| >= 2 &&
      r.effects[|r.effects| - 1] ==
        Fetch("POST", r.client.baseURL + "/translate",
              JsonBody(TranslateBody(Field(r.page.shown.value, "original_text"), SelectedTarget(p)))) &&
      (exists i, url :: 0 <= i < |r.effects| - 1 &&
         r.effects[i] == Fetch("POST", url, TranscribeRequest(st.currentFile.value, p.language, "transcribe", "")))
  {
    var file := st.currentFile.value;
    var first := FirstRequest(file, p);
    var t := RequestSpec(c, "/transcribe", "POST", first, net1, fetch1);
    var text := TranscribedText(t);
    var u := TranslateSpec(t.state, text, SelectedTarget(p), net2, fetch2);
    assert StartSpec(st, p, c, net1, fetch1, net2, fetch2) == StartWith(st, p, c, t, u);
    TwoStepShowsTranslation(st, p, c, t, u);
    TranslateSendsOnlyPresentText(t.state, text, SelectedTarget(p), net2, fetch2);
    assert text != Undefined && text != Val(JNull);
    PostEndsWithItsFetch(c, "/transcribe", first, net1, fetch1);
    var effects := t.effects + u.effects;
    assert effects[|t.effects| - 1] == Fetch("POST", t.state.baseURL + "/transcribe", first);
  }

  /**
   * Task `translate`: when the transcription returned but its `result.text`
   * cannot be read, or is missing or `null`, the run fails at 50 with the
   * browser's `Cannot read properties of …` message and nothing is sent to
   * `/translate`.
   */
  lemma {:induction false} MissingTextStopsBeforeTranslation(st: AppState, p: Page, c: ClientState,
                                 net1: (nat, nat) -> ProbeOutcome, fetch1: FetchOutcome,
                                 net2: (nat, nat) -> ProbeOutcome, fetch2: FetchOutcome)
    requires st.currentFile.Some? && !st.isProcessing && SelectedTask(p) == "translate"
    requires var t := RequestSpec(c, "/transcribe", "POST", FirstRequest(st.currentFile.value, p), net1, fetch1);
      t.result.Ok? && (TranscribedText(t) == Undefined || TranscribedText(t) == Val(JNull))
    ensures var t := RequestSpec(c, "/transcribe", "POST", FirstRequest(st.currentFile.value, p), net1, fetch1);
      var r := StartSpec(st, p, c, net1, fetch1, net2, fetch2);
      r.effects == t.effects && r.client == t.state && r.page.progress == p.progress + [0, 25, 50] &&
      r.page.shown == p.shown && r.page.uncaught == p.uncaught &&
      exists what, prop :: r.page.errors == p.errors + ["Transcription failed: " + ReadError(what, prop)]
  {
    var t := RequestSpec(c, "/transcribe", "POST", FirstRequest(st.currentFile.value, p), net1, fetch1);
    var u := TranslateSpec(t.state, TranscribedText(t), SelectedTarget(p), net2, fetch2);
    var b := BusyPage(p);
    var o := TwoStepOutcome(st.(isProcessing := true), b, t, SelectedTarget(p), u);
    assert StartSpec(st, p, c, net1, fetch1, net2, fetch2) == Release(o);
    MissingTextFails(st.(isProcessing := true), b, t, SelectedTarget(p), net2, fetch2);
    assert b.progress + [25, 50] == p.progress + [0, 25, 50];
  }

  lemma MissingTextFails(st: AppState, p: Page, t: Step, target: string,
                         net: (nat, nat) -> ProbeOutcome, fetch: FetchOutcome)
    requires t.result.Ok? && (TranscribedText(t) == Undefined || TranscribedText(t) == Val(JNull))
    ensures var r := TwoStepOutcome(st, p, t, target, TranslateSpec(t.state, TranscribedText(t), target, net, fetch));
      r.effects == t.effects && r.client == t.state && r.page.progress == p.progress + [25, 50] &&
      r.page.shown == p.shown && r.page.uncaught == p.uncaught &&
      exists what, prop :: r.page.errors == p.errors + ["Transcription failed: " + ReadError(what, prop)]
  {
    var u := TranslateSpec(t.state, TranscribedText(t), target, net, fetch);
    var path := ReadPath(Val(t.result.value), "result", "text");
    if path.Err? {
      var what, prop := UnreadableTextFails(st, p, t, target, u);
    } else {
      var what := AbsentTextFails(st, p, t, target, net, fetch);
    }
  }

  /** The read of `result.text` itself throws: the run fails at 50 with that message. */
  lemma UnreadableTextFails(st: AppState, p: Page, t: Step, target: string, u: Step)
    returns (what: string, prop: string)
    requires t.result.Ok? && ReadPath(Val(t.result.value), "result", "text").Err?
    ensures var r := TwoStepOutcome(st, p, t, target, u);
      r.effects == t.effects && r.client == t.state &&
      r.page == FailSpec(st, p.(progress := p.progress + [25, 50]), ReadError(what, prop))
  {
    ReadPathOfReply(t.result.value, "result", "text");
    what := if t.result.value == JNull || Prop(Val(t.result.value), "result") == Ok(Val(JNull)) then "null" else "undefined";
    prop := if t.result.value == JNull then "result" else "text";
    assert p.progress + [25] + [50] == p.progress + [25, 50];
  }

  /** `result.text` reads as `undefined` or `null`: `translateText` throws on its `length`. */
  lemma AbsentTextFails(st: AppState, p: Page, t: Step, target: string,
                        net: (nat, nat) -> ProbeOutcome, fetch: FetchOutcome)
    returns (what: string)
    requires t.result.Ok? && ReadPath(Val(t.result.value), "result", "text").Ok?
    requires TranscribedText(t) == Undefined || TranscribedText(t) == Val(JNull)
    ensures var r := TwoStepOutcome(st, p, t, target, TranslateSpec(t.state, TranscribedText(t), target, net, fetch));
      r.effects == t.effects && r.client == t.state &&
      r.page == FailSpec(st, p.(progress := p.progress + [25, 50]), ReadError(what, "length"))
  {
    var text := TranscribedText(t);
    what := if text == Undefined then "undefined" else "null";
    assert TranslateSpec(t.state, text, target, net, fetch) == Step(t.state, Err(ReadError(what, "length")), []);
    assert p.progress + [25] + [50] == p.progress + [25, 50];
    assert t.effects + [] == t.effects;
  }

  /**
   * Any other task: the one request carries the Whisper task `whisper_translate`
   * maps to, and the target language only when that task is `translate`.
   */
  lemma {:induction false} DirectSendsWhisperTask(st: AppState, p: Page, c: ClientState,
                               net1: (nat, nat) -> ProbeOutcome, fetch1: FetchOutcome,
                               net2: (nat, nat) -> ProbeOutcome, fetch2: FetchOutcome)
    requires st.currentFile.Some? && !st.isProcessing && SelectedTask(p) != "translate"
    requires StartSpec(st, p, c, net1, fetch1, net2, fetch2).page.errors == p.errors
    ensures var r := StartSpec(st, p, c, net1, fetch1, net2, fetch2);
      var form := TranscribeForm(st.currentFile.value, p.language, WhisperTask(SelectedTask(p)), SelectedTarget(p));
      r.effects != [] &&
      r.effects[|r.effects| - 1] == Fetch("POST", r.client.baseURL + "/transcribe", Form(form)) &&
      (("task", Text("translate")) in form <==> SelectedTask(p) == "whisper_translate") &&
      (("target_language", Text(SelectedTarget(p))) in form <==> SelectedTask(p) == "whisper_translate")
  {
    var file := st.currentFile.value;
    var form := TranscribeForm(file, p.language, WhisperTask(SelectedTask(p)), SelectedTarget(p));
    var t := RequestSpec(c, "/transcribe", "POST", Form(form), net1, fetch1);
    var u := TranslateSpec(t.state, TranscribedText(t), SelectedTarget(p), net2, fetch2);
    assert StartSpec(st, p, c, net1, fetch1, net2, fetch2) == StartWith(st, p, c, t, u);
    DirectSummary(st.(isProcessing := true), BusyPage(p), t);
    PostEndsWithItsFetch(c, "/transcribe", Form(form), net1, fetch1);
    TranscribeFormTask(file, p.language, WhisperTask(SelectedTask(p)), SelectedTarget(p), Text("translate"));
  }

  // ------------------------------------------------------- file selection

  /** The text of the error shown for an invalid file: every violation, one per line. */
  function ViolationLines(vs: seq<Violation>, formatSize: nat -> string): (lines: seq<string>)
    ensures |lines| == |vs|
    ensures forall i :: 0 <= i < |vs| ==> lines[i] == ViolationMessage(vs[i], formatSize)
  {
    seq(|vs|, i requires 0 <= i < |vs| => ViolationMessage(vs[i], formatSize))
  }

  /** `handleFileSelect(file)`, without the preview it renders. */
  function FileSelectSpec(st: AppState, p: Page, file: Option<UploadFile>, formatSize: nat -> string): (AppState, Page) {
    if file.None? then (st, p)
    else
      var vs := Violations(file);
      if vs != [] then (st, p.(errors := p.errors + [Join(ViolationLines(vs, formatSize), "\n")]))
      else (st.(currentFile := file), p.(optionsVisible := true, transcribeEnabled := true))
  }

  /**
   * An invalid file shows one error listing every violation and leaves the
   * current file as it was; a valid file becomes the current file.
   */
  lemma FileSelectKeepsOrReplaces(st: AppState, p: Page, file: UploadFile, formatSize: nat -> string)
    ensures var (st', p') := FileSelectSpec(st, p, Some(file), formatSize);
      (Violations(Some(file)) != [] ==>
         st' == st && p'.errors == p.errors + [Join(ViolationLines(Violations(Some(file)), formatSize), "\n")]) &&
      (Violations(Some(file)) == [] ==>
         st' == st.(currentFile := Some(file)) && p'.errors == p.errors && p'.transcribeEnabled) &&
      (Violations(Some(file)) == [] <==> file.size <= MaxFileSize && TypeAccepted(file))
  {
  }

  /** `removeCurrentFile()`. */
  function RemoveFileSpec(st: AppState, p: Page): (AppState, Page) {
    (st.(currentFile := None), p.(optionsVisible := false, transcribeEnabled := false))
  }

  /** After the file is removed a transcription cannot start. */
  lemma RemovedFileCannotStart(st: AppState, p: Page, c: ClientState,
                               net1: (nat, nat) -> ProbeOutcome, fetch1: FetchOutcome,
                               net2: (nat, nat) -> ProbeOutcome, fetch2: FetchOutcome)
    ensures var (st', p') := RemoveFileSpec(st, p);
      StartSpec(st', p', c, net1, fetch1, net2, fetch2) == AppRun(st', p', c, [])
  {
  }

  /** `resetApp()`: the file is removed, the transcript cleared, the result and speech parts hidden. */
  function ResetSpec(st: AppState, p: Page): (AppState, Page) {
    var (st1, p1) := RemoveFileSpec(st, p);
    (st1.(currentTranscription := ""), p1.(progressVisible := false, ttsSectionVisible := false))
  }

  // --------------------------------------------------------- task choice

  /** `handleTaskChange()`. */
  function TaskChangeSpec(p: Page): (p': Page)
    ensures p'.translateGroupVisible <==> p.task == "translate" || p.task == "whisper_translate"
    ensures p.task == "whisper_translate" ==> p'.target == "en"
    ensures p.task != "whisper_translate" ==> p'.target == p.target
    ensures p'.task == p.task && p'.language == p.language && p'.errors == p.errors
  {
    var showTranslate := p.task == "translate" || p.task == "whisper_translate";
    p.(translateGroupVisible := showTranslate,
       target := if p.task == "whisper_translate" then "en" else p.target)
  }

  /** Choosing Whisper's own translation makes the next run ask for English. */
  lemma WhisperTranslateAsksEnglish(p: Page, file: UploadFile)
    requires p.task == "whisper_translate"
    ensures var p' := TaskChangeSpec(p);
      ("target_language", Text("en")) in
        TranscribeForm(file, p'.language, WhisperTask(SelectedTask(p')), SelectedTarget(p'))
  {
  }

  // -------------------------------------------------------- text to speech

  /** `initializeTTS()`: availability is the health check's answer; unavailable hides the speak button. */
  function InitializeTtsSpec(st: AppState, p: Page, available: bool): (AppState, Page) {
    (st.(ttsAvailable := available), if available then p else p.(speakVisible := false))
  }

  /** When speech is unavailable the speak button stays hidden through every later result. */
  lemma UnavailableSpeechHidesButton(st: AppState, p: Page, result: J)
    ensures var (st1, p1) := InitializeTtsSpec(st, p, false);
      var (_, p2) := ShowResultsSpec(st1, p1, result);
      !p1.speakVisible && !p2.speakVisible
  {
  }

  /**
   * `speakTranscript()` with the speech client's own id `ttsId`: its cleanup
   * first, then the synthesis of the transcript; the new audio id is
   * `audio_id || id` of the reply.
   */
  function SpeakSpec(st: AppState, p: Page, baseUrl: string, ttsId: Option<string>,
                     cleanupFetch: FetchOutcome, synthFetch: FetchOutcome): (AppState, Page, Option<string>, seq<Effect>)
  {
    if st.currentTranscription == [] then (st, p.(errors := p.errors + ["No transcript to speak"]), ttsId, [])
    else
      var (ttsId', cleanup) := TtsClient.CleanupCurrentSpec(ttsId, baseUrl, cleanupFetch);
      var sent := cleanup + [Fetch("POST", baseUrl + "/synthesize",
                                   JsonBody(TtsClient.SynthesisBody(st.currentTranscription, None)))];
      var (st', p') := SpeechReply(st, p, TtsClient.JsonOf(synthFetch, TtsClient.HttpErrorStatus));
      (st', p', ttsId', sent)
  }

  /** What `speakTranscript` does with the synthesis call's result. */
  function SpeechReply(st: AppState, p: Page, r: Result<J, string>): (AppState, Page) {
    if r.Err? then (st, p.(errors := p.errors + ["TTS failed: " + r.error]))
    else if r.value == JNull then (st, p.(errors := p.errors + ["TTS failed: " + ReadError("null", "audio_id")]))
    else (st.(currentAudioId := AudioIdOf(r.value)), p.(ttsSectionVisible := true))
  }

  /** A reply with a record sets the audio id; any failure adds one `TTS failed: …` message and changes nothing else. */
  lemma SpeechReplySetsIdOrFails(st: AppState, p: Page, r: Result<J, string>)
    ensures var (st', p') := SpeechReply(st, p, r);
      (p'.errors == p.errors ==> r.Ok? && st' == st.(currentAudioId := AudioIdOf(r.value)) && p'.ttsSectionVisible) &&
      (p'.errors != p.errors ==> (st' == st && |p'.errors| == |p.errors| + 1 &&
         StartsWith(p'.errors[|p.errors|], "TTS failed: ")))
  {
    var (st', p') := SpeechReply(st, p, r);
    if r.Err? || r.value == JNull {
      var m := if r.Err? then r.error else ReadError("null", "audio_id");
      assert st' == st && p'.errors == p.errors + ["TTS failed: " + m];
      assert |p'.errors| == |p.errors| + 1;
      assert p'.errors[|p.errors|] == "TTS failed: " + m;
      TtsFailedPrefix(m);
    } else {
      assert p'.errors == p.errors;
    }
  }

  lemma TtsFailedPrefix(m: string)
    ensures StartsWith("TTS failed: " + m, "TTS failed: ")
  {
    assert ("TTS failed: " + m)[..12] == "TTS failed: ";
  }

  /** With no transcript nothing is synthesised and only the error is shown. */
  lemma SpeakNeedsTranscript(st: AppState, p: Page, baseUrl: string, ttsId: Option<string>,
                             cleanupFetch: FetchOutcome, synthFetch: FetchOutcome)
    requires st.currentTranscription == []
    ensures var (st', p', ttsId', sent) := SpeakSpec(st, p, baseUrl, ttsId, cleanupFetch, synthFetch);
      st' == st && p'.errors == p.errors + ["No transcript to speak"] && sent == [] && ttsId' == ttsId
  {
  }

  /**
   * The speech client's own id is never set, so the cleanup `speakTranscript`
   * runs first never sends a DELETE: the one request is the synthesis of the
   * whole transcript. The application's id becomes the reply's id on success
   * and is kept on failure.
   */
  lemma SpeakSynthesisesTranscript(st: AppState, p: Page, baseUrl: string,
                                   cleanupFetch: FetchOutcome, synthFetch: FetchOutcome)
    requires st.currentTranscription != []
    ensures var (st', p', ttsId', sent) := SpeakSpec(st, p, baseUrl, None, cleanupFetch, synthFetch);
      ttsId' == None &&
      sent == [Fetch("POST", baseUrl + "/synthesize", JsonBody(TtsClient.SynthesisBody(st.currentTranscription, None)))] &&
      (p'.errors == p.errors ==>
         synthFetch.Responded? && synthFetch.ok && synthFetch.body.Ok? &&
         st' == st.(currentAudioId := AudioIdOf(synthFetch.body.value)) && p'.ttsSectionVisible) &&
      (p'.errors != p.errors ==> (st' == st && |p'.errors| == |p.errors| + 1 &&
         StartsWith(p'.errors[|p.errors|], "TTS failed: ")))
  {
    TtsClient.CleanupWithoutId(baseUrl, cleanupFetch);
    SpeechReplySetsIdOrFails(st, p, TtsClient.JsonOf(synthFetch, TtsClient.HttpErrorStatus));
  }

  /** `clearTTSAudio()`: the speech section is hidden whether or not the DELETE succeeded. */
  function ClearSpec(st: AppState, p: Page, baseUrl: string, fetch: FetchOutcome): (AppState, Page, seq<Effect>) {
    var hidden := p.(ttsSectionVisible := false);
    if st.currentAudioId.None? || st.currentAudioId.value == [] then (st, hidden, [])
    else
      var sent := [Fetch("DELETE", baseUrl + "/cleanup/" + st.currentAudioId.value, NoBody)];
      if TtsClient.AnyStatus(fetch).Ok? then (st.(currentAudioId := None), hidden, sent)
      else (st, hidden, sent)
  }

  /**
   * The section is always hidden; with an id one DELETE for it is sent and
   * the id is cleared iff that call returned; without an id nothing is sent.
   */
  lemma ClearHidesAndClearsOnSuccess(st: AppState, p: Page, baseUrl: string, fetch: FetchOutcome)
    ensures var (st', p', sent) := ClearSpec(st, p, baseUrl, fetch);
      !p'.ttsSectionVisible && p'.errors == p.errors &&
      (st.currentAudioId.Some? && st.currentAudioId.value != [] ==>
         sent == [Fetch("DELETE", baseUrl + "/cleanup/" + st.currentAudioId.value, NoBody)] &&
         (st'.currentAudioId == None <==> fetch.Responded? && fetch.body.Ok?) &&
         st' == st.(currentAudioId := st'.currentAudioId)) &&
      (st.currentAudioId.None? || st.currentAudioId.value == [] ==> sent == [] && st' == st)
  {
  }

  /** After a reset, asking for speech only shows the "No transcript to speak" error. */
  lemma ResetThenSpeakFails(st: AppState, p: Page, baseUrl: string, ttsId: Option<string>,
                            cleanupFetch: FetchOutcome, synthFetch: FetchOutcome)
    ensures var (st1, p1) := ResetSpec(st, p);
      var (st2, p2, _, sent) := SpeakSpec(st1, p1, baseUrl, ttsId, cleanupFetch, synthFetch);
      st1.currentFile == None && sent == [] && st2 == st1 && p2.errors == p1.errors + ["No transcript to speak"]
  {
  }

  // ------------------------------------------------------------ the class

  class WhisperApp {
    const api: WhisperAPI
    const tts: TtsClient.TTSService
    const audioHandler: AudioHandler
    var state: AppState
    var page: Page

    /** `new WhisperApp()` on a page served from `host`, with the page's controls as given. */
    constructor (host: string, initialPage: Page)
      ensures state == InitialAppState && page == initialPage
      ensures fresh(api) && fresh(tts) && fresh(audioHandler)
      ensures api.State() == InitialState(host)
      ensures tts.baseUrl == TtsClient.ChooseBaseUrl(None, host) && tts.currentAudioId == None
    {
      api := new WhisperAPI(host);
      tts := new TtsClient.TTSService(None, host);
      audioHandler := new AudioHandler();
      state := InitialAppState;
      page := initialPage;
    }

    method ShowResults(result: J)
      modifies this
      ensures (state, page) == ShowResultsSpec(old(state), old(page), result)
    {
      var text := Field(result, "text");
      state := state.(currentTranscription := TextOf(text));
      page := page.(progressVisible := false, shown := Some(result));
      if state.ttsAvailable && Truthy(text) {
        page := page.(speakVisible := true);
      }
    }

    method Fail(message: string)
      modifies this
      ensures state == old(state) && page == FailSpec(state, old(page), message)
    {
      page := page.(errors := page.errors + ["Transcription failed: " + message], progressVisible := false);
      page := page.(optionsVisible := true, transcribeEnabled := state.currentFile.Some?);
    }

    method TwoStep(file: UploadFile, language: string, target: string,
                   net1: (nat, nat) -> ProbeOutcome, fetch1: FetchOutcome,
                   net2: (nat, nat) -> ProbeOutcome, fetch2: FetchOutcome)
      returns (effects: seq<Effect>)
      modifies this, api
      ensures var t := RequestSpec(old(api.State()), "/transcribe", "POST", TranscribeRequest(file, language, "transcribe", ""), net1, fetch1);
        AppRun(state, page, api.State(), effects) ==
        TwoStepOutcome(old(state), old(page), t, target, TranslateSpec(t.state, TranscribedText(t), target, net2, fetch2))
    {
      page := page.(progress := page.progress + [25]);
      var transcribed, e1 := api.TranscribeAudio(file, language, "transcribe", "", net1, fetch1);
      effects := e1;
      if transcribed.Err? {
        Fail(transcribed.error);
        return;
      }
      page := page.(progress := page.progress + [50]);
      var text := ReadPath(Val(transcribed.value), "result", "text");
      if text.Err? {
        Fail(text.error);
        return;
      }
      effects := Translate(e1, Prop(Val(transcribed.value), "result").value, text.value, target, net2, fetch2);
    }

    /** The second step of task `translate`, once the transcription came back with `record` and its `text`. */
    method Translate(before: seq<Effect>, record: JsVal, text: JsVal, target: string,
                     net: (nat, nat) -> ProbeOutcome, fetch: FetchOutcome)
      returns (effects: seq<Effect>)
      modifies this, api
      ensures AppRun(state, page, api.State(), effects) ==
        TranslationOutcome(old(state), old(page), before, record, text, target,
                           TranslateSpec(old(api.State()), text, target, net, fetch))
    {
      var translated, e2 := api.TranslateText(text, target, net, fetch);
      effects := before + e2;
      if translated.Err? {
        Fail(translated.error);
        return;
      }
      var value := ReadPath(Val(translated.value), "result", "translated_text");
      if value.Err? {
        Fail(value.error);
        return;
      }
      page := page.(progress := page.progress + [100]);
      ShowResults(TwoStepResult(record, value.value, text, target));
    }

    method Direct(file: UploadFile, language: string, task: string, target: string,
                  net1: (nat, nat) -> ProbeOutcome, fetch1: FetchOutcome)
      returns (effects: seq<Effect>)
      modifies this, api
      ensures AppRun(state, page, api.State(), effects) ==
        DirectOutcome(old(state), old(page),
                      RequestSpec(old(api.State()), "/transcribe", "POST",
                                  TranscribeRequest(file, language, WhisperTask(task), target), net1, fetch1))
    {
      var whisperTask := if task == "whisper_translate" then "translate" else "transcribe";
      var reply, e := api.TranscribeAudio(file, language, whisperTask, target, net1, fetch1);
      effects := e;
      if reply.Err? {
        Fail(reply.error);
        return;
      }
      page := page.(progress := page.progress + [100]);
      var inner := Prop(Val(reply.value), "result");
      if inner.Err? {
        // the timer's callback throws, after the run's `try` has ended
        page := page.(uncaught := page.uncaught + [inner.error]);
        return;
      }
      ShowResults(if inner.value.Val? && Truthy(inner.value.j) then inner.value.j else reply.value);
    }

    /** `startTranscription()`, with the two requests' network outcomes as oracles. */
    method StartTranscription(net1: (nat, nat) -> ProbeOutcome, fetch1: FetchOutcome,
                              net2: (nat, nat) -> ProbeOutcome, fetch2: FetchOutcome)
      returns (effects: seq<Effect>)
      modifies this, api
      ensures AppRun(state, page, api.State(), effects) ==
        StartSpec(old(state), old(page), old(api.State()), net1, fetch1, net2, fetch2)
    {
      if state.currentFile.None? || state.isProcessing {
        return [];
      }
      var file := state.currentFile.value;
      var language := page.language;
      var task := SelectedTask(page);
      var target := SelectedTarget(page);
      ghost var t := RequestSpec(api.State(), "/transcribe", "POST", FirstRequest(file, page), net1, fetch1);
      ghost var u := TranslateSpec(t.state, TranscribedText(t), target, net2, fetch2);
      assert StartSpec(state, page, api.State(), net1, fetch1, net2, fetch2) == StartWith(state, page, api.State(), t, u);
      state := state.(isProcessing := true);
      page := BusyPage(page);
      if task == "translate" {
        effects := TwoStep(file, language, target, net1, fetch1, net2, fetch2);
      } else {
        effects := Direct(file, language, task, target, net1, fetch1);
      }
      state := state.(isProcessing := false);
      page := page.(transcribeEnabled := true);
    }

    /** `handleFileSelect(file)`; `formatSize` stands for `formatFileSize`. */
    method HandleFileSelect(file: Option<UploadFile>, formatSize: nat -> string)
      modifies this
      ensures (state, page) == FileSelectSpec(old(state), old(page), file, formatSize)
    {
      if file.None? {
        return;
      }
      var isValid, errors := audioHandler.ValidateFile(file);
      if !isValid {
        page := page.(errors := page.errors + [Join(ViolationLines(errors, formatSize), "\n")]);
        return;
      }
      state := state.(currentFile := file);
      page := page.(optionsVisible := true, transcribeEnabled := true);
    }

    method RemoveCurrentFile()
      modifies this
      ensures (state, page) == RemoveFileSpec(old(state), old(page))
    {
      state := state.(currentFile := None);
      page := page.(optionsVisible := false, transcribeEnabled := false);
    }

    /** `resetApp()`; the speech client's cleanup is started and not awaited. */
    method ResetApp(cleanupFetch: FetchOutcome) returns (effects: seq<Effect>)
      modifies this, tts
      ensures (state, page) == ResetSpec(old(state), old(page))
      ensures (tts.currentAudioId, effects) == TtsClient.CleanupCurrentSpec(old(tts.currentAudioId), tts.baseUrl, cleanupFetch)
    {
      RemoveCurrentFile();
      page := page.(progressVisible := false, ttsSectionVisible := false);
      state := state.(currentTranscription := "");
      effects := tts.CleanupCurrent(cleanupFetch);
    }

    method HandleTaskChange()
      modifies this
      ensures state == old(state) && page == TaskChangeSpec(old(page))
    {
      var task := page.task;
      page := page.(translateGroupVisible := task == "translate" || task == "whisper_translate");
      if task == "whisper_translate" {
        page := page.(target := "en");
      }
    }

    method InitializeTTS(fetch: FetchOutcome) returns (effect: Effect)
      modifies this
      ensures (state, page) == InitializeTtsSpec(old(state), old(page), fetch.Responded? && fetch.ok)
      ensures effect == Fetch("GET", tts.baseUrl + "/health", NoBody)
    {
      var available;
      available, effect := tts.TestConnection(fetch);
      state := state.(ttsAvailable := available);
      if !available {
        page := page.(speakVisible := false);
      }
    }

    method SpeakTranscript(cleanupFetch: FetchOutcome, synthFetch: FetchOutcome) returns (effects: seq<Effect>)
      modifies this, tts
      ensures (state, page, tts.currentAudioId, effects) ==
        SpeakSpec(old(state), old(page), tts.baseUrl, old(tts.currentAudioId), cleanupFetch, synthFetch)
    {
      if state.currentTranscription == [] {
        page := page.(errors := page.errors + ["No transcript to speak"]);
        return [];
      }
      effects := tts.CleanupCurrent(cleanupFetch);
      var r, sent := tts.Synthesize(state.currentTranscription, None, synthFetch);
      effects := effects + [sent];
      if r.Err? {
        page := page.(errors := page.errors + ["TTS failed: " + r.error]);
        return;
      }
      if r.value == JNull {
        page := page.(errors := page.errors + ["TTS failed: " + ReadError("null", "audio_id")]);
        return;
      }
      state := state.(currentAudioId := AudioIdOf(r.value));
      page := page.(ttsSectionVisible := true);
    }

    method ClearTTSAudio(fetch: FetchOutcome) returns (effects: seq<Effect>)
      modifies this
      ensures (state, page, effects) == ClearSpec(old(state), old(page), tts.baseUrl, fetch)
    {
      effects := [];
      if state.currentAudioId.Some? && state.currentAudioId.value != [] {
        var r, sent := tts.Cleanup(state.currentAudioId.value, fetch);
        effects := [sent];
        if r.Err? {
          page := page.(ttsSectionVisible := false);
          return;
        }
        state := state.(currentAudioId := None);
      }
      page := page.(ttsSectionVisible := false);
    }
  }
}
