/**
 * stt.js: the session control of `SpeechRecognitionEngine` around a Web Speech recognition
 * object, the de-duplicating `STTResultHandler`, and the language-code helpers. The
 * recognition object is not modelled; what the engine does to it is a log of commands, and
 * what it reports back (`onstart`, `onend`, `onerror`) and the 100 ms restart timer are events.
 */
module Stt {
  import opened Wrappers
  import opened Text
  import opened Seqs

  const MaxRestartAttempts := 5
  const RestartDelayMs := 100
  const UnsupportedMessage := "Web Speech API is not supported in this browser"

  /** A call the engine makes on its recognition object. */
  datatype Command = RecognitionStart | RecognitionStop | RecognitionAbort

  /** The fields of a `SpeechRecognitionEngine`, with what it has done so far. */
  datatype EngineState = EngineState(
    initialized: bool,        // `recognition` is non-null
    isRecognizing: bool,
    autoRestart: bool,
    restartAttempts: nat,
    lang: string,             // `options.lang`
    recognitionLang: string,  // `recognition.lang`; the empty string leaves the browser default
    pendingRestarts: nat,     // 100 ms timers set by `onend` that have not fired yet
    restartsScheduled: nat,   // all such timers ever set
    commands: seq<Command>,   // calls made on the recognition object
    errors: seq<string>)      // messages of the errors passed to `onError`

  /** `new SpeechRecognitionEngine(options)`: the empty `lang` stands for a missing one. */
  function NewEngine(lang: string, autoRestart: Option<bool>): (s: EngineState)
    ensures s.autoRestart <==> autoRestart != Some(false)
    ensures !s.initialized && !s.isRecognizing && s.restartAttempts == 0 && s.pendingRestarts == 0
  {
    EngineState(false, false, autoRestart != Some(false), 0, if lang == "" then "auto" else lang, "", 0, 0, [], [])
  }

  /** `init()` once the browser provides a recognition constructor. */
  function Init(s: EngineState): EngineState {
    s.(initialized := true,
       recognitionLang := if s.lang != "" && s.lang != "auto" then s.lang else s.recognitionLang)
  }

  /**
   * `start()`: `supported` tells whether the browser has a recognition constructor, and
   * `startError` is the message `recognition.start()` throws, if it throws. An `Err` is the
   * error `init()` throws out of `start()`; the state is then unchanged.
   */
  function StartStep(s: EngineState, supported: bool, startError: Option<string>): (r: Result<EngineState>)
    ensures r.Err? <==> !s.initialized && !supported
    ensures r.Err? ==> r.message == UnsupportedMessage
    ensures s.initialized && s.isRecognizing ==> r == Ok(s)
    ensures r.Ok? ==>
      && r.value.initialized && r.value.autoRestart == s.autoRestart
      && r.value.restartAttempts == s.restartAttempts && r.value.isRecognizing == s.isRecognizing
  {
    if !s.initialized && !supported then Err(UnsupportedMessage)
    else
      var t := if s.initialized then s else Init(s);
      if t.isRecognizing then Ok(t)
      else
        match startError
        case None => Ok(t.(commands := t.commands + [RecognitionStart]))
        case Some(m) => Ok(t.(errors := t.errors + [m]))
  }

  /** `stop()`: a no-op unless a session is running. */
  function StopStep(s: EngineState): EngineState {
    if !s.initialized || !s.isRecognizing then s
    else s.(autoRestart := false, commands := s.commands + [RecognitionStop])
  }

  /** `abort()` */
  function AbortStep(s: EngineState): EngineState {
    if !s.initialized then s
    else s.(autoRestart := false, commands := s.commands + [RecognitionAbort], isRecognizing := false)
  }

  /** `setLanguage(lang)` */
  function SetLanguageStep(s: EngineState, lang: string): EngineState {
    s.(lang := lang, recognitionLang := if s.initialized && lang != "auto" then lang else s.recognitionLang)
  }

  /** The `onstart` handler. */
  function OnStart(s: EngineState): EngineState {
    s.(isRecognizing := true, restartAttempts := 0)
  }

  /** The `onend` handler: schedules a restart 100 ms later while attempts remain. */
  function OnEnd(s: EngineState): EngineState {
    var t := s.(isRecognizing := false);
    if t.autoRestart && t.restartAttempts < MaxRestartAttempts then
      t.(restartAttempts := t.restartAttempts + 1, pendingRestarts := t.pendingRestarts + 1,
         restartsScheduled := t.restartsScheduled + 1)
    else t
  }

  /** The message of the `Error` the `onerror` handler passes to `onError` for an error code, if any. */
  function ErrorReport(code: string): Option<string> {
    if code == "no-speech" then None
    else if code == "audio-capture" then Some("마이크 또는 오디오 캡처에 접근할 수 없습니다.")
    else if code == "not-allowed" then Some("음성 인식 권한이 거부되었습니다.")
    else if code == "network" then Some("네트워크 오류가 발생했습니다.")
    else if code == "aborted" then None
    else Some("음성 인식 오류: " + code)
  }

  /** The `onerror` handler. */
  function OnError(s: EngineState, code: string): EngineState {
    var t := match ErrorReport(code) case Some(m) => s.(errors := s.errors + [m]) case None => s;
    if code == "not-allowed" then t.(autoRestart := false) else t
  }

  /** The 100 ms timer set by `onend` fires and calls `start()` (the recognition object exists by then). */
  function FireRestart(s: EngineState, startError: Option<string>): EngineState {
    if s.pendingRestarts == 0 then s
    else
      var t := s.(pendingRestarts := s.pendingRestarts - 1);
      match StartStep(t, true, startError) case Ok(u) => u case Err(_) => t
  }

  datatype EngineEvent =
    | StartCall(supported: bool, startError: Option<string>)
    | StopCall
    | AbortCall
    | SetLanguageCall(lang: string)
    | Started
    | Ended
    | Errored(code: string)
    | RestartTimer(startError: Option<string>)

  function Step(s: EngineState, e: EngineEvent): EngineState {
    match e
    case StartCall(supported, err) => (match StartStep(s, supported, err) case Ok(t) => t case Err(_) => s)
    case StopCall => StopStep(s)
    case AbortCall => AbortStep(s)
    case SetLanguageCall(lang) => SetLanguageStep(s, lang)
    case Started => OnStart(s)
    case Ended => OnEnd(s)
    case Errored(code) => OnError(s, code)
    case RestartTimer(err) => FireRestart(s, err)
  }

  /** The errors passed to `onError` are only ever added to: each step appends its own after the earlier ones. */
  lemma StepKeepsErrors(s: EngineState, e: EngineEvent)
    ensures |s.errors| <= |Step(s, e).errors| && Step(s, e).errors[..|s.errors|] == s.errors
  {
  }

  /** The engine after a sequence of calls and callbacks, in order. */
  function Run(s: EngineState, events: seq<EngineEvent>): EngineState
    decreases |events|
  {
    if events == [] then s else Run(Step(s, events[0]), events[1..])
  }

  /** Error classification: only `no-speech` and `aborted` are silent, every other code reports exactly one error, and only `not-allowed` turns automatic restart off. */
  lemma ErrorClassification(s: EngineState, code: string)
    ensures |OnError(s, code).errors| == |s.errors| + (if code == "no-speech" || code == "aborted" then 0 else 1)
    ensures OnError(s, code).errors[..|s.errors|] == s.errors
    ensures OnError(s, code).autoRestart <==> s.autoRestart && code != "not-allowed"
    ensures OnError(s, code).(errors := s.errors, autoRestart := s.autoRestart) == s
  {
  }

  /** Between two `onstart` signals the attempt counter counts the restarts scheduled, and never passes 5. */
  lemma {:induction false} RestartsBetweenStarts(s: EngineState, events: seq<EngineEvent>)
    requires s.restartAttempts <= MaxRestartAttempts
    requires forall i :: 0 <= i < |events| ==> !events[i].Started?
    ensures Run(s, events).restartAttempts <= MaxRestartAttempts
    ensures Run(s, events).restartsScheduled - s.restartsScheduled == Run(s, events).restartAttempts - s.restartAttempts
    ensures Run(s, events).restartsScheduled - s.restartsScheduled <= MaxRestartAttempts - s.restartAttempts
    decreases |events|
  {
    if events != [] {
      var t := Step(s, events[0]);
      assert t.restartAttempts <= MaxRestartAttempts;
      assert t.restartsScheduled - s.restartsScheduled == t.restartAttempts - s.restartAttempts;
      RestartsBetweenStarts(t, events[1..]);
    }
  }

  /** Nothing turns automatic restart back on: once off (after `stop`, `abort` or `not-allowed`), no restart is ever scheduled again. */
  lemma {:induction false} RestartOffIsFinal(s: EngineState, events: seq<EngineEvent>)
    requires !s.autoRestart
    ensures !Run(s, events).autoRestart
    ensures Run(s, events).restartsScheduled == s.restartsScheduled
    decreases |events|
  {
    if events != [] {
      RestartOffIsFinal(Step(s, events[0]), events[1..]);
    }
  }

  /** `stop()` and `abort()` end automatic restart, and `abort()` ends the session at once. */
  lemma StopAndAbort(s: EngineState)
    requires s.initialized
    ensures s.isRecognizing ==> !StopStep(s).autoRestart && StopStep(s).commands == s.commands + [RecognitionStop]
    ensures !s.isRecognizing ==> StopStep(s) == s
    ensures !AbortStep(s).autoRestart && !AbortStep(s).isRecognizing
  {
  }

  /**
   * `stop()` between `onend` and the restart timer changes nothing, so the timer still
   * starts a new session: stopping does not cancel a pending restart.
   */
  lemma StopDoesNotCancelPendingRestart(s: EngineState)
    requires s.initialized && s.isRecognizing && s.autoRestart && s.restartAttempts < MaxRestartAttempts
    ensures var t := Run(s, [Ended, StopCall, RestartTimer(None)]);
      t.commands == s.commands + [RecognitionStart] && t.autoRestart
  {
    var e := OnEnd(s);
    assert StopStep(e) == e;
    assert Run(s, [Ended, StopCall, RestartTimer(None)]) == Run(Step(s, Ended), [StopCall, RestartTimer(None)]);
    assert Run(e, [StopCall, RestartTimer(None)]) == Run(Step(e, StopCall), [RestartTimer(None)]);
  }

  /** The engine object; its methods are the calls and the callbacks its recognition object invokes. */
  class SpeechRecognitionEngine {
    var initialized: bool
    var isRecognizing: bool
    var autoRestart: bool
    var restartAttempts: nat
    var lang: string
    var recognitionLang: string
    var pendingRestarts: nat
    var restartsScheduled: nat
    var commands: seq<Command>
    var errors: seq<string>

    function State(): EngineState
      reads this
    {
      EngineState(initialized, isRecognizing, autoRestart, restartAttempts, lang, recognitionLang,
                  pendingRestarts, restartsScheduled, commands, errors)
    }

    constructor (lang: string, autoRestart: Option<bool>)
      ensures State() == NewEngine(lang, autoRestart)
    {
      initialized, isRecognizing := false, false;
      this.autoRestart := autoRestart != Some(false);
      restartAttempts := 0;
      this.lang := if lang == "" then "auto" else lang;
      recognitionLang := "";
      pendingRestarts, restartsScheduled := 0, 0;
      commands, errors := [], [];
    }

    method Start(supported: bool, startError: Option<string>) returns (r: Outcome)
      modifies this
      ensures var s := StartStep(old(State()), supported, startError);
        && (r.Fail? <==> s.Err?)
        && (s.Err? ==> r.message == s.message && State() == old(State()))
        && (s.Ok? ==> State() == s.value)
    {
      if !initialized {
        if !supported {
          return Fail(UnsupportedMessage);
        }
        initialized := true;
        if lang != "" && lang != "auto" {
          recognitionLang := lang;
        }
      }
      if isRecognizing {
        return Pass;
      }
      match startError {
        case None => commands := commands + [RecognitionStart];
        case Some(m) => errors := errors + [m];
      }
      return Pass;
    }

    method Stop()
      modifies this
      ensures State() == StopStep(old(State()))
    {
      if !initialized || !isRecognizing {
        return;
      }
      autoRestart := false;
      commands := commands + [RecognitionStop];
    }

    method Abort()
      modifies this
      ensures State() == AbortStep(old(State()))
    {
      if !initialized {
        return;
      }
      autoRestart := false;
      commands := commands + [RecognitionAbort];
      isRecognizing := false;
    }

    method SetLanguage(lang: string)
      modifies this
      ensures State() == SetLanguageStep(old(State()), lang)
    {
      this.lang := lang;
      if initialized && lang != "auto" {
        recognitionLang := lang;
      }
    }

    method HandleStart()
      modifies this
      ensures State() == OnStart(old(State()))
    {
      isRecognizing := true;
      restartAttempts := 0;
    }

    method HandleEnd()
      modifies this
      ensures State() == OnEnd(old(State()))
    {
      isRecognizing := false;
      if autoRestart && restartAttempts < MaxRestartAttempts {
        restartAttempts := restartAttempts + 1;
        pendingRestarts := pendingRestarts + 1;
        restartsScheduled := restartsScheduled + 1;
      }
    }

    method HandleError(code: string)
      modifies this
      ensures State() == OnError(old(State()), code)
    {
      var report := ErrorReport(code);
      if report.Some? {
        errors := errors + [report.value];
      }
      if code == "not-allowed" {
        autoRestart := false;
      }
    }

    method FireRestartTimer(startError: Option<string>)
      modifies this
      ensures State() == FireRestart(old(State()), startError)
    {
      if pendingRestarts == 0 {
        return;
      }
      pendingRestarts := pendingRestarts - 1;
      var _ := Start(true, startError);
    }

    /** `isActive()` */
    method IsActive() returns (b: bool)
      ensures b == isRecognizing
    {
      b := isRecognizing;
    }
  }

  // ---------------------------------------------------------------------------------------
  // STTResultHandler

  const MaxHistorySize := 100

  /** One recognition result as `onresult` reports it (the confidence is not modelled). */
  datatype SttResult = SttResult(transcript: string, isFinal: bool, timestamp: int)

  /** The fields of an `STTResultHandler`. */
  datatype HandlerState = HandlerState(lastFinal: string, lastInterim: string, history: seq<SttResult>)

  /** The object `handleResults` returns. */
  datatype Processed = Processed(finals: seq<SttResult>, interims: seq<SttResult>, hasNew: bool)

  function NewHandler(): HandlerState {
    HandlerState("", "", [])
  }

  /** `addToHistory`: push, then shift once when over 100 entries. */
  function PushHistory(history: seq<SttResult>, r: SttResult): (h: seq<SttResult>)
    ensures |history| <= MaxHistorySize ==> h == Newest(history + [r], MaxHistorySize)
  {
    var pushed := history + [r];
    if |pushed| > MaxHistorySize then pushed[1..] else pushed
  }

  /** One iteration of the loop in `handleResults`. */
  function HandleOne(h: HandlerState, p: Processed, r: SttResult): (HandlerState, Processed) {
    if r.isFinal then
      if r.transcript != h.lastFinal then
        (h.(lastFinal := r.transcript, history := PushHistory(h.history, r)),
         p.(finals := p.finals + [r], hasNew := true))
      else (h, p)
    else (h.(lastInterim := r.transcript), p.(interims := p.interims + [r]))
  }

  /** The rest of the loop in `handleResults`, from handler state `h` and partial result `p`. */
  function HandleFrom(h: HandlerState, p: Processed, results: seq<SttResult>): (HandlerState, Processed)
    decreases |results|
  {
    if results == [] then (h, p)
    else
      var (h', p') := HandleOne(h, p, results[0]);
      HandleFrom(h', p', results[1..])
  }

  /** `handleResults(results)`: the new handler state and the returned object. */
  function HandleBatch(h: HandlerState, results: seq<SttResult>): (HandlerState, Processed) {
    HandleFrom(h, Processed([], [], false), results)
  }

  function FinalsOf(results: seq<SttResult>): seq<SttResult>
    decreases |results|
  {
    if results == [] then [] else (if results[0].isFinal then [results[0]] else []) + FinalsOf(results[1..])
  }

  function InterimsOf(results: seq<SttResult>): seq<SttResult>
    decreases |results|
  {
    if results == [] then [] else (if results[0].isFinal then [] else [results[0]]) + InterimsOf(results[1..])
  }

  /** Reference de-duplication: drop every result whose transcript equals the one kept before it (or `prev` at the start). */
  function Collapse(prev: string, rs: seq<SttResult>): seq<SttResult>
    decreases |rs|
  {
    if rs == [] then []
    else if rs[0].transcript == prev then Collapse(prev, rs[1..])
    else [rs[0]] + Collapse(rs[0].transcript, rs[1..])
  }

  function LastTranscript(rs: seq<SttResult>, otherwise: string): string {
    if rs == [] then otherwise else rs[|rs| - 1].transcript
  }

  /** The finals kept never repeat the transcript kept just before them, the previous batch's last final included. */
  lemma {:induction false} CollapseNoRepeat(prev: string, rs: seq<SttResult>)
    ensures var c := Collapse(prev, rs);
      && (c != [] ==> c[0].transcript != prev)
      && forall i :: 0 <= i < |c| - 1 ==> c[i].transcript != c[i + 1].transcript
    decreases |rs|
  {
    if rs != [] {
      CollapseNoRepeat(prev, rs[1..]);
      CollapseNoRepeat(rs[0].transcript, rs[1..]);
    }
  }

  /** Collapsing keeps the finals in input order: the result is a subsequence whose last element is the input's last final whenever any is kept. */
  lemma {:induction false} CollapseLast(prev: string, rs: seq<SttResult>)
    ensures LastTranscript(Collapse(prev, rs), prev) == LastTranscript(rs, prev)
    decreases |rs|
  {
    if rs != [] {
      var c := Collapse(prev, rs);
      if rs[0].transcript == prev {
        CollapseLast(prev, rs[1..]);
      } else {
        CollapseLast(rs[0].transcript, rs[1..]);
      }
    }
  }

  lemma HandleFromFinals(h: HandlerState, p: Processed, results: seq<SttResult>)
    requires |h.history| <= MaxHistorySize
    requires p.hasNew <==> p.finals != []
    ensures var (h', p') := HandleFrom(h, p, results);
      var kept := Collapse(h.lastFinal, FinalsOf(results));
      && p'.finals == p.finals + kept
      && (p'.hasNew <==> p'.finals != [])
      && h'.lastFinal == LastTranscript(kept, h.lastFinal)
      && h'.history == Newest(h.history + kept, MaxHistorySize)
  {
    HandleFromReturnsKept(h, p, results);
    HandleFromKeepsLastFinals(h, p, results);
  }

  /** The finals the loop returns are the de-duplicated finals, and `hasNew` says whether there are any. */
  lemma {:induction false} HandleFromReturnsKept(h: HandlerState, p: Processed, results: seq<SttResult>)
    requires p.hasNew <==> p.finals != []
    ensures var p' := HandleFrom(h, p, results).1;
      && p'.finals == p.finals + Collapse(h.lastFinal, FinalsOf(results))
      && (p'.hasNew <==> p'.finals != [])
    decreases |results|
  {
    if results != [] {
      var r := results[0];
      var (h1, p1) := HandleOne(h, p, r);
      HandleFromReturnsKept(h1, p1, results[1..]);
      var rest := Collapse(h1.lastFinal, FinalsOf(results[1..]));
      if r.isFinal && r.transcript != h.lastFinal {
        assert FinalsOf(results) == [r] + FinalsOf(results[1..]);
        assert Collapse(h.lastFinal, FinalsOf(results)) == [r] + rest;
        assert p.finals + [r] + rest == p.finals + ([r] + rest);
      } else if r.isFinal {
        assert FinalsOf(results) == [r] + FinalsOf(results[1..]);
      } else {
        assert FinalsOf(results) == FinalsOf(results[1..]);
      }
    }
  }

  /** The handler remembers the last kept final, and its history gains exactly the kept finals. */
  lemma {:induction false} HandleFromKeepsLastFinals(h: HandlerState, p: Processed, results: seq<SttResult>)
    requires |h.history| <= MaxHistorySize
    ensures var h' := HandleFrom(h, p, results).0;
      var kept := Collapse(h.lastFinal, FinalsOf(results));
      && h'.lastFinal == LastTranscript(kept, h.lastFinal)
      && h'.history == Newest(h.history + kept, MaxHistorySize)
    decreases |results|
  {
    if results == [] {
      assert h.history + [] == h.history;
    } else {
      var r := results[0];
      var (h1, p1) := HandleOne(h, p, r);
      HandleFromKeepsLastFinals(h1, p1, results[1..]);
      var rest := Collapse(h1.lastFinal, FinalsOf(results[1..]));
      if r.isFinal && r.transcript != h.lastFinal {
        assert FinalsOf(results) == [r] + FinalsOf(results[1..]);
        assert Collapse(h.lastFinal, FinalsOf(results)) == [r] + rest;
        NewestOfNewest(h.history, r, rest, [r] + rest, MaxHistorySize);
        assert LastTranscript([r] + rest, h.lastFinal) == LastTranscript(rest, r.transcript);
      } else if r.isFinal {
        assert FinalsOf(results) == [r] + FinalsOf(results[1..]);
      } else {
        assert FinalsOf(results) == FinalsOf(results[1..]);
      }
    }
  }

  lemma {:induction false} HandleFromInterims(h: HandlerState, p: Processed, results: seq<SttResult>)
    ensures var (h', p') := HandleFrom(h, p, results);
      && p'.interims == p.interims + InterimsOf(results)
      && h'.lastInterim == LastTranscript(InterimsOf(results), h.lastInterim)
    decreases |results|
  {
    if results == [] {
      assert p.interims + [] == p.interims;
    } else {
      var r := results[0];
      var one := HandleOne(h, p, r);
      assert HandleFrom(h, p, results) == HandleFrom(one.0, one.1, results[1..]);
      HandleFromInterims(one.0, one.1, results[1..]);
      var rest := InterimsOf(results[1..]);
      if r.isFinal {
        assert InterimsOf(results) == rest;
        assert one.1.interims == p.interims && one.0.lastInterim == h.lastInterim;
      } else {
        assert InterimsOf(results) == [r] + rest;
        assert one.1.interims == p.interims + [r] && one.0.lastInterim == r.transcript;
        assert p.interims + [r] + rest == p.interims + ([r] + rest);
      }
    }
  }

  /**
   * `handleResults` against its reference: the finals returned are the batch's finals with
   * consecutive repeats removed (counting the previous batch's last final), `hasNew` holds
   * exactly when some final is returned, every interim is returned in order, the last
   * transcripts are updated, and the history keeps the newest 100 kept finals.
   */
  lemma HandleResultsSpec(h: HandlerState, results: seq<SttResult>)
    requires |h.history| <= MaxHistorySize
    ensures var (h', p) := HandleBatch(h, results);
      && p.finals == Collapse(h.lastFinal, FinalsOf(results))
      && (p.hasNew <==> p.finals != [])
      && p.interims == InterimsOf(results)
      && h'.lastFinal == LastTranscript(FinalsOf(results), h.lastFinal)
      && h'.lastInterim == LastTranscript(InterimsOf(results), h.lastInterim)
      && h'.history == Newest(h.history + p.finals, MaxHistorySize)
  {
    HandleFromFinals(h, Processed([], [], false), results);
    HandleFromInterims(h, Processed([], [], false), results);
    CollapseLast(h.lastFinal, FinalsOf(results));
  }

  /** A final repeated in the next batch is dropped: two batches saying `hello` return it once, and `world` after it is new. */
  lemma RepeatedFinalDropped(t: int)
    ensures var (h1, p1) := HandleBatch(NewHandler(), [SttResult("hello", true, t)]);
      var (h2, p2) := HandleBatch(h1, [SttResult("hello", true, t + 1), SttResult("world", true, t + 2)]);
      && p1.finals == [SttResult("hello", true, t)]
      && p2.finals == [SttResult("world", true, t + 2)]
      && h2.history == [SttResult("hello", true, t), SttResult("world", true, t + 2)]
  {
    var hello, hello', world := SttResult("hello", true, t), SttResult("hello", true, t + 1), SttResult("world", true, t + 2);
    var first := HandleOne(NewHandler(), Processed([], [], false), hello);
    assert first == (HandlerState("hello", "", [hello]), Processed([hello], [], true));
    assert [hello][1..] == [];
    assert HandleBatch(NewHandler(), [hello]) == HandleFrom(first.0, first.1, []);
    var h1 := first.0;
    var b := [hello', world];
    assert HandleOne(h1, Processed([], [], false), hello') == (h1, Processed([], [], false));
    assert HandleBatch(h1, b) == HandleFrom(h1, Processed([], [], false), [world]) by {
      assert b[1..] == [world];
    }
    assert PushHistory([hello], world) == [hello, world];
    assert Processed([], [], false).finals + [world] == [world];
    assert h1.lastFinal == "hello" && h1.history == [hello];
    assert world.transcript != h1.lastFinal by {
      assert world.transcript[0] != h1.lastFinal[0];
    }
    assert HandleOne(h1, Processed([], [], false), world) == (HandlerState("world", "", [hello, world]), Processed([world], [], true));
    assert HandleFrom(h1, Processed([], [], false), [world]) == HandleFrom(HandlerState("world", "", [hello, world]), Processed([world], [], true), []);
  }

  /** `transcriptHistory.slice(-limit)` */
  function HistorySlice(history: seq<SttResult>, limit: int): (r: seq<SttResult>)
    ensures limit > 0 ==> r == Newest(history, limit)
    ensures limit == 0 ==> r == history
    ensures limit < 0 ==> r == if -limit >= |history| then [] else history[-limit..]
  {
    var start := -limit;
    var from := if start < 0 then (if |history| + start < 0 then 0 else |history| + start)
                else (if start > |history| then |history| else start);
    history[from..]
  }

  const DefaultHistoryLimit := 10

  /** The handler object. */
  class STTResultHandler {
    var lastFinal: string
    var lastInterim: string
    var history: seq<SttResult>

    ghost predicate Valid()
      reads this
    {
      |history| <= MaxHistorySize
    }

    function State(): HandlerState
      reads this
    {
      HandlerState(lastFinal, lastInterim, history)
    }

    constructor ()
      ensures Valid() && State() == NewHandler()
    {
      lastFinal, lastInterim, history := "", "", [];
    }

    method AddToHistory(r: SttResult)
      requires Valid()
      modifies this
      ensures Valid()
      ensures history == PushHistory(old(history), r)
      ensures lastFinal == old(lastFinal) && lastInterim == old(lastInterim)
    {
      history := history + [r];
      if |history| > MaxHistorySize {
        history := history[1..];
      }
    }

    method HandleResults(results: seq<SttResult>) returns (p: Processed)
      requires Valid()
      modifies this
      ensures Valid()
      ensures (State(), p) == HandleBatch(old(State()), results)
    {
      p := Processed([], [], false);
      var i := 0;
      while i < |results|
        invariant 0 <= i <= |results| && Valid()
        invariant HandleFrom(State(), p, results[i..]) == HandleBatch(old(State()), results)
      {
        var r := results[i];
        assert results[i..][1..] == results[i + 1..];
        if r.isFinal {
          if r.transcript != lastFinal {
            p := p.(finals := p.finals + [r]);
            lastFinal := r.transcript;
            p := p.(hasNew := true);
            AddToHistory(r);
          }
        } else {
          p := p.(interims := p.interims + [r]);
          lastInterim := r.transcript;
        }
        i := i + 1;
      }
    }

    /** `getHistory(limit)`; callers that omit the limit pass `DefaultHistoryLimit`. */
    method GetHistory(limit: int) returns (r: seq<SttResult>)
      ensures r == HistorySlice(history, limit)
    {
      var start := -limit;
      var from := if start < 0 then (if |history| + start < 0 then 0 else |history| + start)
                  else (if start > |history| then |history| else start);
      r := history[from..];
    }

    method ClearHistory()
      modifies this
      ensures Valid() && State() == NewHandler()
    {
      history, lastFinal, lastInterim := [], "", "";
    }

    method GetLastFinal() returns (s: string)
      ensures s == lastFinal
    {
      s := lastFinal;
    }

    method GetLastInterim() returns (s: string)
      ensures s == lastInterim
    {
      s := lastInterim;
    }
  }

  // ---------------------------------------------------------------------------------------
  // Language codes

  /** The table of content-bundle.js, and the first twelve entries of the table of stt.js. */
  const BundleLanguageCodes: seq<(string, string)> := [
    ("auto", "auto"), ("ko", "ko-KR"), ("en", "en-US"), ("ja", "ja-JP"), ("zh-CN", "zh-CN"),
    ("zh-TW", "zh-TW"), ("es", "es-ES"), ("fr", "fr-FR"), ("de", "de-DE"), ("it", "it-IT"),
    ("pt", "pt-PT"), ("ru", "ru-RU")]

  /** The five entries stt.js adds after them. */
  const ExtraLanguageCodes: seq<(string, string)> := [
    ("ar", "ar-SA"), ("hi", "hi-IN"), ("th", "th-TH"), ("vi", "vi-VN"), ("id", "id-ID")]

  /** `LANGUAGE_CODES` of stt.js, in its order. */
  const LanguageCodes: seq<(string, string)> := BundleLanguageCodes + ExtraLanguageCodes

  /** `LANGUAGE_CODES[lang] || lang` over a given table. */
  function CodeIn(table: seq<(string, string)>, lang: string): string {
    var m := Lookup(table, lang);
    if m.Some? && m.value != "" then m.value else lang
  }

  /** `getLanguageCode` of stt.js. */
  function LanguageCode(lang: string): string {
    CodeIn(LanguageCodes, lang)
  }

  /** `getLanguageCode` of content-bundle.js. */
  function BundleLanguageCode(lang: string): string {
    CodeIn(BundleLanguageCodes, lang)
  }

  /** `isSupportedLanguage`: `lang` is a key of the table. */
  predicate IsSupportedLanguage(lang: string) {
    Lookup(LanguageCodes, lang).Some?
  }

  /** A table key maps to its entry, anything else to itself. */
  lemma {:induction false} LanguageCodeSpec(lang: string)
    ensures IsSupportedLanguage(lang) ==> (lang, LanguageCode(lang)) in LanguageCodes
    ensures !IsSupportedLanguage(lang) ==> LanguageCode(lang) == lang
  {
    var m := Lookup(LanguageCodes, lang);
    if m.Some? {
      var i :| 0 <= i < |LanguageCodes| && LanguageCodes[i] == (lang, m.value);
      assert LanguageCodes[i].1 != "";
    }
  }

  lemma {:induction false} LookupPrefix(a: seq<(string, string)>, b: seq<(string, string)>, key: string)
    requires Lookup(a, key).Some?
    ensures Lookup(a + b, key) == Lookup(a, key)
    decreases |a|
  {
    if a[0].0 != key {
      assert (a + b)[1..] == a[1..] + b;
      LookupPrefix(a[1..], b, key);
    }
  }

  /** The bundle agrees with stt.js on its twelve codes and returns the others unchanged. */
  lemma BundleLanguageCodeSpec(lang: string)
    ensures Lookup(BundleLanguageCodes, lang).Some? ==> BundleLanguageCode(lang) == LanguageCode(lang)
    ensures Lookup(BundleLanguageCodes, lang).None? ==> BundleLanguageCode(lang) == lang
  {
    if Lookup(BundleLanguageCodes, lang).Some? {
      LookupPrefix(BundleLanguageCodes, ExtraLanguageCodes, lang);
    }
  }

  lemma LookupAbsent(table: seq<(string, string)>, key: string)
    requires |key| > 0
    requires forall i :: 0 <= i < |table| ==> |table[i].0| == 0 || table[i].0[0] != key[0]
    ensures Lookup(table, key).None?
  {
  }

  /** `vi` is one of the five codes the bundle lacks: it reaches the recognizer as `vi` instead of `vi-VN`. */
  lemma BundleLacksVietnamese()
    ensures BundleLanguageCode("vi") == "vi" && LanguageCode("vi") == "vi-VN"
  {
    BundleHasNoVi();
    ExtraHasVi();
    LookupAfterPrefix(BundleLanguageCodes, ExtraLanguageCodes, "vi");
  }

  lemma BundleHasNoVi()
    ensures Lookup(BundleLanguageCodes, "vi").None?
  {
    LookupAbsent(BundleLanguageCodes, "vi");
  }

  lemma ExtraHasVi()
    ensures Lookup(ExtraLanguageCodes, "vi") == Some("vi-VN")
  {
    assert ExtraLanguageCodes[1..][1..][1..][0] == ("vi", "vi-VN");
  }

  lemma {:induction false} LookupAfterPrefix(a: seq<(string, string)>, b: seq<(string, string)>, key: string)
    requires Lookup(a, key).None?
    ensures Lookup(a + b, key) == Lookup(b, key)
    decreases |a|
  {
    if a != [] {
      assert (a + b)[1..] == a[1..] + b;
      LookupAfterPrefix(a[1..], b, key);
    } else {
      assert a + b == b;
    }
  }

  /** The object `validateSTTOptions` returns. */
  datatype Validation = Validation(valid: bool, errors: seq<string>)

  /** `validateSTTOptions({ lang })`; `speechSupported` is `isWebSpeechSupported()` and the empty `lang` a missing one. */
  function ValidateSttOptions(speechSupported: bool, lang: string): (v: Validation)
    ensures v.valid <==> speechSupported && (lang == "" || lang == "auto" || IsSupportedLanguage(lang))
    ensures v.valid <==> v.errors == []
    ensures lang == "" || lang == "auto" ==> v.errors == if speechSupported then [] else [UnsupportedMessage]
  {
    var errors := (if speechSupported then [] else [UnsupportedMessage])
      + (if lang != "" && lang != "auto" && !IsSupportedLanguage(lang) then ["Language '" + lang + "' is not supported"] else []);
    Validation(|errors| == 0, errors)
  }
}
