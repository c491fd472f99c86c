/**
 One conformance run: a single (test case, player) pair driven to exactly one
 published result record.

 The browser, the media element and the player libraries are replaced by an
 ordered trace of the events they deliver to the run; real-time timers appear
 only as the position of their expiry events in that trace. A run is a state
 machine that is `Running` until the first call of `finishTest`, and
 `Finished` with the published record from then on.
 */
module TestRunner {
  import opened Base
  import opened Catalog

  /** A JavaScript value compared with `===`: a string, `null` or `undefined`. */
  datatype Tag = Undefined | Null | Text(s: string)

  /** The player the run drives, chosen by the `player` query parameter. */
  datatype Backend = Native | HlsJs | Shaka

  /** `'hls.js'` and `'shaka-player'` select the libraries; any other value plays through `<video src>`. */
  function BackendOf(player: Tag): (b: Backend)
    ensures b == HlsJs <==> player == Text("hls.js")
    ensures b == Shaka <==> player == Text("shaka-player")
  {
    if player == Text("hls.js") then HlsJs
    else if player == Text("shaka-player") then Shaka
    else Native
  }

  /** The argument of `finishTest`: a raw PASS carries no reason, a raw FAIL always does. */
  datatype Raw = RawPass | RawFail(reason: string)

  function RawStatus(raw: Raw): Outcome {
    if raw.RawPass? then PASS else FAIL
  }

  function RawReason(raw: Raw): Option<string> {
    if raw.RawPass? then None else Some(raw.reason)
  }

  /** What drawing the current video frame onto a canvas produced. */
  datatype Drawing = DataUrl(url: string) | Threw(message: string)

  /** The media element's size when `finishTest` runs, and the outcome of the capture attempt. */
  datatype Frame = Frame(width: nat, height: nat, drawing: Drawing)

  /** Stands in for the frame of a raw FAIL, which `finishTest` never looks at (see `FrameIrrelevantOnFail`). */
  const NoFrame := Frame(0, 0, Threw(""))

  /** `event.data` of a message from the service worker. */
  datatype Message = Message(kind: Tag, testId: Tag, url: string)

  /** What the browser and the player libraries deliver to a run. */
  datatype Event =
    | ConsoleError(args: seq<string>)                   // a call of the patched `console.error`
    | WorkerMessage(data: Message)                      // a service-worker `message` event
    | VideoError(code: string, message: string)         // the media element's `error` event
    | CanPlay                                           // `canplay`: the listener calls `video.play()`
    | PlayResolved                                      // a pending `play()` promise resolved: a 500 ms timer starts
    | PlayRejected(message: string)                     // a pending `play()` promise rejected
    | GraceElapsed(frame: Frame)                        // a 500 ms timer started by `PlayResolved` fired
    | Timeout                                           // the 15000 ms run timer fired
    | HlsError(fatal: bool, errorType: string, details: string)   // `Hls.Events.ERROR`
    | ShakaError(code: string)                          // the Shaka player's `error` event

  /** The record a run resolves with: the raw result spread with the diagnostics. */
  datatype Published = Published(
    status: Outcome,
    reason: Option<string>,
    logs: seq<string>,
    screenshot: Option<string>,
    networkRequests: seq<string>)

  /** The buffers of a running run, and the asynchronous work it has started. */
  datatype Pending = Pending(logs: seq<string>, networkRequests: seq<string>, plays: nat, graces: nat)

  datatype Run = Running(pending: Pending) | Finished(result: Published)

  /** The inputs of `runSingleHlsTest`, with the library support check as a flag. */
  datatype Context = Context(test: TestCase, testId: Tag, backend: Backend, supported: bool)

  // ---------------------------------------------------------------------------
  // finishTest

  function Flip(o: Outcome): Outcome {
    if o == PASS then FAIL else PASS
  }

  /** The screenshot and the logs after the capture attempt of `finishTest`. */
  datatype Capture = Capture(screenshot: Option<string>, logs: seq<string>)

  /**
   A capture is attempted only for a raw PASS and draws only a frame of
   non-zero size; such a drawing yields an image or, if it throws, one log line.
   */
  function CaptureFrame(raw: Raw, frame: Frame, logs: seq<string>): (c: Capture)
    ensures c.screenshot.Some? <==> raw.RawPass? && frame.width > 0 && frame.height > 0 && frame.drawing.DataUrl?
    ensures c.screenshot.Some? ==> c.screenshot.value == frame.drawing.url
    ensures c.logs != logs <==> raw.RawPass? && frame.width > 0 && frame.height > 0 && frame.drawing.Threw?
    ensures c.logs == logs || c.logs == logs + ["Could not generate screenshot: " + frame.drawing.message]
  {
    if raw.RawFail? || frame.width == 0 || frame.height == 0 then Capture(None, logs)
    else match frame.drawing
      case Threw(message) => Capture(None, logs + ["Could not generate screenshot: " + message])
      case DataUrl(url) => Capture(Some(url), logs)
  }

  /**
   The expected-failure rewrite. It reads the RAW result, not the record it
   rewrites, and touches only `status` and `reason`.
   */
  function Invert(raw: Raw, r: Published): (inv: Published)
    ensures inv.status == Flip(RawStatus(raw))
    ensures inv.logs == r.logs && inv.screenshot == r.screenshot && inv.networkRequests == r.networkRequests
    ensures inv.reason.Some?
  {
    match raw
    case RawFail(reason) => r.(status := PASS, reason := Some("Player failed as expected: " + reason))
    case RawPass => r.(status := FAIL, reason := Some("Unexpected pass"))
  }

  /** `finishTest(result)`: capture, attach the buffers, then apply the expected-failure rewrite once. */
  function Finish(test: TestCase, raw: Raw, logs: seq<string>, net: seq<string>, frame: Frame): (r: Published)
    ensures r.status == (if ExpectsFailure(test) then Flip(RawStatus(raw)) else RawStatus(raw))
    ensures r.networkRequests == net
    ensures r.screenshot.Some? ==> raw.RawPass? && frame.width > 0 && frame.height > 0
    ensures |logs| <= |r.logs| && r.logs[..|logs|] == logs
  {
    var c := CaptureFrame(raw, frame, logs);
    var base := Published(RawStatus(raw), RawReason(raw), c.logs, c.screenshot, net);
    if ExpectsFailure(test) then Invert(raw, base) else base
  }

  // ---------------------------------------------------------------------------
  // The run as a state machine over an event trace

  /** The network-message filter of the worker `message` listener. */
  predicate Relevant(testId: Tag, m: Message): (b: bool)
    ensures b ==> m.testId == testId
    ensures m.testId == Undefined && testId != Undefined ==> !b
  {
    m.kind == Text("network_request") && m.testId == testId
  }

  /** The state right after the executor: a library that is not supported finishes the run at once. */
  function Start(ctx: Context): (r: Run)
    ensures r.Finished? <==> (ctx.backend.HlsJs? || ctx.backend.Shaka?) && !ctx.supported
  {
    if ctx.backend == HlsJs && !ctx.supported then
      Finished(Finish(ctx.test, RawFail("HLS.js not supported"), ["HLS.js is not supported"], [], NoFrame))
    else if ctx.backend == Shaka && !ctx.supported then
      Finished(Finish(ctx.test, RawFail("Shaka Player not supported"), ["Shaka Player is not supported"], [], NoFrame))
    else
      Running(Pending([], [], 0, 0))
  }

  /** The listeners of a run reacting to one event. Once finished, nothing changes the published record. */
  function Step(ctx: Context, run: Run, e: Event): (r: Run)
    ensures run.Finished? ==> r == run
    ensures r.Running? ==> run.Running?
    ensures run.Running? && r.Finished? ==>
      && r.result.networkRequests == run.pending.networkRequests
      && |run.pending.logs| <= |r.result.logs| && r.result.logs[..|run.pending.logs|] == run.pending.logs
  {
    match run
    case Finished(_) => run
    case Running(p) =>
      match e
      case ConsoleError(args) =>
        Running(p.(logs := p.logs + [Join(args, " ")]))
      case WorkerMessage(m) =>
        if Relevant(ctx.testId, m) then Running(p.(networkRequests := p.networkRequests + [m.url])) else run
      case VideoError(code, message) =>
        Finished(Finish(ctx.test, RawFail("Player error"),
          p.logs + ["Video Error: code " + code + ", message: " + message], p.networkRequests, NoFrame))
      case CanPlay =>
        Running(p.(plays := p.plays + 1))
      case PlayResolved =>
        if p.plays == 0 then run else Running(p.(plays := p.plays - 1, graces := p.graces + 1))
      case PlayRejected(message) =>
        if p.plays == 0 then run
        else Finished(Finish(ctx.test, RawFail("Could not play"),
          p.logs + ["Play promise rejected: " + message], p.networkRequests, NoFrame))
      case GraceElapsed(frame) =>
        if p.graces == 0 then run
        else Finished(Finish(ctx.test, RawPass, p.logs, p.networkRequests, frame))
      case Timeout =>
        Finished(Finish(ctx.test, RawFail("Timed out"), p.logs, p.networkRequests, NoFrame))
      case HlsError(fatal, errorType, details) =>
        if ctx.backend == HlsJs && ctx.supported && fatal then
          Finished(Finish(ctx.test, RawFail("HLS.js fatal error"),
            p.logs + ["HLS.js Error: " + errorType + " - " + details], p.networkRequests, NoFrame))
        else run
      case ShakaError(code) =>
        if ctx.backend == Shaka && ctx.supported then
          Finished(Finish(ctx.test, RawFail("Shaka Player error"),
            p.logs + ["Shaka Player Error: " + code], p.networkRequests, NoFrame))
        else run
  }

  /** Feeds a trace to a run, in order. */
  function Steps(ctx: Context, run: Run, trace: seq<Event>): Run
    decreases |trace|
  {
    if |trace| == 0 then run else Steps(ctx, Step(ctx, run, trace[0]), trace[1..])
  }

  /** `runSingleHlsTest(test, testId, player)` after the events of `trace`. */
  function RunTrace(ctx: Context, trace: seq<Event>): (r: Run)
    ensures Start(ctx).Finished? ==> r == Start(ctx)
    ensures r.Running? ==> Start(ctx).Running?
  {
    var start := Start(ctx);
    if start.Finished? then
      FinishedAbsorbs(ctx, start.result, trace);
      Steps(ctx, start, trace)
    else
      Steps(ctx, start, trace)
  }

  /** The message `main` posts to the parent window once the run has resolved. */
  datatype Posted = Posted(kind: string, testId: Tag, result: Published, testIndex: int)

  /**
   `main`: look the test up by index and post its result. An index outside the
   catalog leaves `test` undefined, the executor throws, and nothing is posted.
   */
  function RunPage(testIndex: int, testId: Tag, player: Tag, supported: bool, trace: seq<Event>): (m: Option<Posted>)
    ensures m.Some? ==> 0 <= testIndex < |Tests|
    ensures m.Some? ==> m.value.kind == "test_result" && m.value.testId == testId && m.value.testIndex == testIndex
    ensures m.Some? ==> RunTrace(Context(Tests[testIndex], testId, BackendOf(player), supported), trace) == Finished(m.value.result)
    ensures 0 <= testIndex < |Tests| && RunTrace(Context(Tests[testIndex], testId, BackendOf(player), supported), trace).Finished? ==> m.Some?
  {
    if 0 <= testIndex < |Tests| then
      match RunTrace(Context(Tests[testIndex], testId, BackendOf(player), supported), trace)
      case Finished(r) => Some(Posted("test_result", testId, r, testIndex))
      case Running(_) => None
    else None
  }

  // ---------------------------------------------------------------------------
  // Reference definitions over a trace

  /** The lines the patched `console.error` appends, in order. */
  function ConsoleLines(trace: seq<Event>): seq<string>
    decreases |trace|
  {
    if |trace| == 0 then []
    else
      var e := trace[|trace| - 1];
      ConsoleLines(trace[..|trace| - 1]) + (if e.ConsoleError? then [Join(e.args, " ")] else [])
  }

  /** The URLs of the worker messages addressed to `testId`, in arrival order. */
  function RelevantUrls(testId: Tag, trace: seq<Event>): seq<string>
    decreases |trace|
  {
    if |trace| == 0 then []
    else
      var e := trace[|trace| - 1];
      RelevantUrls(testId, trace[..|trace| - 1]) +
        (if e.WorkerMessage? && Relevant(testId, e.data) then [e.data.url] else [])
  }

  /** How many events of the trace satisfy `counted`. */
  function CountOf(trace: seq<Event>, counted: Event -> bool): nat
    decreases |trace|
  {
    if |trace| == 0 then 0
    else CountOf(trace[..|trace| - 1], counted) + (if counted(trace[|trace| - 1]) then 1 else 0)
  }

  predicate IsCanPlay(e: Event) { e.CanPlay? }
  predicate IsPlayResolved(e: Event) { e.PlayResolved? }

  // ---------------------------------------------------------------------------
  // finishTest: the expected-failure rewrite and the screenshot

  /** The rewrite table for a test whose `expected` is `'fail'`, and the identity otherwise. */
  lemma InversionTable(test: TestCase, raw: Raw, logs: seq<string>, net: seq<string>, frame: Frame)
    ensures var r := Finish(test, raw, logs, net, frame);
      && (ExpectsFailure(test) && raw.RawFail? ==>
            r.status == PASS && r.reason == Some("Player failed as expected: " + raw.reason))
      && (ExpectsFailure(test) && raw.RawPass? ==> r.status == FAIL && r.reason == Some("Unexpected pass"))
      && (!ExpectsFailure(test) ==> r.status == RawStatus(raw) && r.reason == RawReason(raw))
  {
  }

  /** Reads a published record back as the argument of `finishTest`, as the rewrite would see it. */
  function AsRaw(r: Published): Raw {
    if r.status == PASS then RawPass
    else RawFail(if r.reason.Some? then r.reason.value else "undefined")
  }

  /** Rewriting a rewritten record restores the raw status: the rewrite is an involution on status. */
  lemma InversionInvolutiveOnStatus(raw: Raw, r: Published)
    ensures AsRaw(Invert(raw, r)).RawPass? <==> raw.RawFail?
    ensures Invert(AsRaw(Invert(raw, r)), Invert(raw, r)).status == RawStatus(raw)
  {
  }

  /** ... but not on reason: the raw reason of a confirmed failure is not recovered. */
  lemma InversionLosesReason()
    ensures var once := Invert(RawFail("Timed out"), Published(FAIL, Some("Timed out"), [], None, []));
            var twice := Invert(AsRaw(once), once);
            twice.status == FAIL && twice.reason == Some("Unexpected pass") && twice.reason != Some("Timed out")
  {
  }

  /** A screenshot exists exactly for a raw PASS whose frame has non-zero size and could be drawn. */
  lemma ScreenshotGating(test: TestCase, raw: Raw, logs: seq<string>, net: seq<string>, frame: Frame)
    ensures Finish(test, raw, logs, net, frame).screenshot.Some? <==>
      raw.RawPass? && frame.width > 0 && frame.height > 0 && frame.drawing.DataUrl?
  {
  }

  /** A confirmed expected failure never carries a screenshot. */
  lemma ConfirmedFailureHasNoScreenshot(test: TestCase, raw: Raw, logs: seq<string>, net: seq<string>, frame: Frame)
    requires ExpectsFailure(test)
    ensures Finish(test, raw, logs, net, frame).status == PASS ==> Finish(test, raw, logs, net, frame).screenshot == None
  {
  }

  /** An "Unexpected pass" may carry a screenshot, since the capture happens before the rewrite. */
  lemma UnexpectedPassKeepsScreenshot()
    ensures var r := Finish(VodVp9, RawPass, [], [], Frame(640, 360, DataUrl("data:image/png;base64,")));
            r.status == FAIL && r.reason == Some("Unexpected pass") && r.screenshot == Some("data:image/png;base64,")
  {
  }

  /** The capture attempt never changes status, reason or network list; a throwing capture adds one log line. */
  lemma CaptureNeverChangesOutcome(test: TestCase, raw: Raw, logs: seq<string>, net: seq<string>, f1: Frame, f2: Frame)
    ensures Finish(test, raw, logs, net, f1).status == Finish(test, raw, logs, net, f2).status
    ensures Finish(test, raw, logs, net, f1).reason == Finish(test, raw, logs, net, f2).reason
    ensures Finish(test, raw, logs, net, f1).networkRequests == Finish(test, raw, logs, net, f2).networkRequests
    ensures raw.RawPass? && f1.width > 0 && f1.height > 0 && f1.drawing.Threw? ==>
      Finish(test, raw, logs, net, f1).logs == logs + ["Could not generate screenshot: " + f1.drawing.message]
    ensures f1.width == 0 || f1.height == 0 ==> Finish(test, raw, logs, net, f1).logs == logs
  {
  }

  /** The frame given with a raw FAIL is never looked at. */
  lemma FrameIrrelevantOnFail(test: TestCase, raw: Raw, logs: seq<string>, net: seq<string>, f1: Frame, f2: Frame)
    requires raw.RawFail?
    ensures Finish(test, raw, logs, net, f1) == Finish(test, raw, logs, net, f2)
    ensures Finish(test, raw, logs, net, f1).logs == logs
  {
  }

  // ---------------------------------------------------------------------------
  // The event trace

  lemma {:induction false} StepsAppend(ctx: Context, run: Run, a: seq<Event>, b: seq<Event>)
    ensures Steps(ctx, run, a + b) == Steps(ctx, Steps(ctx, run, a), b)
    decreases |a|
  {
    if |a| == 0 {
      assert a + b == b;
    } else {
      assert (a + b)[1..] == a[1..] + b;
      StepsAppend(ctx, Step(ctx, run, a[0]), a[1..], b);
    }
  }

  lemma {:induction false} FinishedAbsorbs(ctx: Context, r: Published, trace: seq<Event>)
    ensures Steps(ctx, Finished(r), trace) == Finished(r)
    decreases |trace|
  {
    if |trace| > 0 {
      FinishedAbsorbs(ctx, r, trace[1..]);
    }
  }

  /** The run after one more event. */
  lemma RunTraceSnoc(ctx: Context, a: seq<Event>, e: Event)
    ensures RunTrace(ctx, a + [e]) == Step(ctx, RunTrace(ctx, a), e)
  {
    StepsAppend(ctx, Start(ctx), a, [e]);
  }

  /** First finish wins: once a run has resolved, later events change nothing. */
  lemma FirstFinishWins(ctx: Context, a: seq<Event>, b: seq<Event>)
    requires RunTrace(ctx, a).Finished?
    ensures RunTrace(ctx, a + b) == RunTrace(ctx, a)
  {
    StepsAppend(ctx, Start(ctx), a, b);
    FinishedAbsorbs(ctx, RunTrace(ctx, a).result, b);
  }

  /** One event that leaves a run pending adds at most its own log line, URL, `play()` and grace timer. */
  lemma StepWhileRunning(ctx: Context, p: Pending, e: Event)
    requires Step(ctx, Running(p), e).Running?
    ensures var q := Step(ctx, Running(p), e).pending;
      && q.logs == p.logs + (if e.ConsoleError? then [Join(e.args, " ")] else [])
      && q.networkRequests == p.networkRequests +
           (if e.WorkerMessage? && Relevant(ctx.testId, e.data) then [e.data.url] else [])
      && q.plays + q.graces <= p.plays + p.graces + (if IsCanPlay(e) then 1 else 0)
      && q.graces <= p.graces + (if IsPlayResolved(e) then 1 else 0)
  {
  }

  /**
   While a run is pending, its logs are exactly the `console.error` lines so
   far, its network list is exactly the filtered worker messages so far, and
   every pending `play()` or grace timer was started by earlier events.
   */
  lemma {:induction false} RunningInvariant(ctx: Context, trace: seq<Event>)
    requires RunTrace(ctx, trace).Running?
    ensures RunTrace(ctx, trace).pending.logs == ConsoleLines(trace)
    ensures RunTrace(ctx, trace).pending.networkRequests == RelevantUrls(ctx.testId, trace)
    ensures RunTrace(ctx, trace).pending.plays + RunTrace(ctx, trace).pending.graces <= CountOf(trace, IsCanPlay)
    ensures RunTrace(ctx, trace).pending.graces <= CountOf(trace, IsPlayResolved)
    decreases |trace|
  {
    if |trace| > 0 {
      var a, e := trace[..|trace| - 1], trace[|trace| - 1];
      assert trace == a + [e];
      RunTraceSnoc(ctx, a, e);
      assert RunTrace(ctx, a).Running?;
      RunningInvariant(ctx, a);
      StepWhileRunning(ctx, RunTrace(ctx, a).pending, e);
    }
  }

  /**
   Network filter: the published `networkRequests` are the URLs of exactly the
   `network_request` messages for this run that arrived before the finishing
   event; the published logs begin with the `console.error` lines of that prefix.
   */
  lemma NetworkRequestsFiltered(ctx: Context, a: seq<Event>, e: Event, b: seq<Event>)
    requires RunTrace(ctx, a).Running? && RunTrace(ctx, a + [e]).Finished?
    ensures RunTrace(ctx, a + [e] + b).Finished?
    ensures RunTrace(ctx, a + [e] + b).result.networkRequests == RelevantUrls(ctx.testId, a)
    ensures var logs := RunTrace(ctx, a + [e] + b).result.logs;
            |ConsoleLines(a)| <= |logs| && logs[..|ConsoleLines(a)|] == ConsoleLines(a)
  {
    RunningInvariant(ctx, a);
    RunTraceSnoc(ctx, a, e);
    FirstFinishWins(ctx, a + [e], b);
  }

  /** A run finished before any event (an unsupported library) publishes no network request. */
  lemma UnsupportedLibrary(ctx: Context, trace: seq<Event>)
    requires (ctx.backend.HlsJs? || ctx.backend.Shaka?) && !ctx.supported
    ensures RunTrace(ctx, trace) == Start(ctx)
    ensures RunTrace(ctx, trace).Finished?
    ensures RunTrace(ctx, trace).result.logs == [UnsupportedLog(ctx.backend)]
    ensures RunTrace(ctx, trace).result.networkRequests == []
    ensures RunTrace(ctx, trace).result.status == (if ExpectsFailure(ctx.test) then PASS else FAIL)
    ensures RunTrace(ctx, trace).result.reason == Some(
      if ExpectsFailure(ctx.test) then "Player failed as expected: " + UnsupportedReason(ctx.backend)
      else UnsupportedReason(ctx.backend))
  {
    FinishedAbsorbs(ctx, Start(ctx).result, trace);
  }

  function UnsupportedReason(b: Backend): string {
    if b == HlsJs then "HLS.js not supported" else "Shaka Player not supported"
  }

  /** The line logged before an unsupported library finishes the run. */
  function UnsupportedLog(b: Backend): string {
    if b == HlsJs then "HLS.js is not supported" else "Shaka Player is not supported"
  }

  /** The timer fires while the run is pending: the run fails with "Timed out" and the buffers so far. */
  lemma TimeoutSettles(ctx: Context, a: seq<Event>, b: seq<Event>)
    requires RunTrace(ctx, a).Running?
    ensures RunTrace(ctx, a + [Timeout] + b) ==
      Finished(Finish(ctx.test, RawFail("Timed out"), ConsoleLines(a), RelevantUrls(ctx.testId, a), NoFrame))
  {
    RunningInvariant(ctx, a);
    RunTraceSnoc(ctx, a, Timeout);
    FirstFinishWins(ctx, a + [Timeout], b);
  }

  /** Every run whose trace contains the timer's expiry has resolved. */
  lemma TimeoutBoundsRun(ctx: Context, trace: seq<Event>, i: nat)
    requires i < |trace| && trace[i] == Timeout
    ensures RunTrace(ctx, trace).Finished?
  {
    var a, b := trace[..i], trace[i + 1..];
    assert trace == a + [Timeout] + b;
    if RunTrace(ctx, a).Finished? {
      FirstFinishWins(ctx, a, [Timeout] + b);
      assert a + ([Timeout] + b) == trace;
    } else {
      TimeoutSettles(ctx, a, b);
    }
  }

  /** A raw PASS needs an earlier `canplay` and a resolved `play()`. */
  lemma PassFollowsPlay(ctx: Context, a: seq<Event>, frame: Frame)
    requires RunTrace(ctx, a).Running? && RunTrace(ctx, a + [GraceElapsed(frame)]).Finished?
    ensures CountOf(a, IsCanPlay) > 0 && CountOf(a, IsPlayResolved) > 0
    ensures RunTrace(ctx, a + [GraceElapsed(frame)]).result ==
      Finish(ctx.test, RawPass, ConsoleLines(a), RelevantUrls(ctx.testId, a), frame)
  {
    RunningInvariant(ctx, a);
    RunTraceSnoc(ctx, a, GraceElapsed(frame));
  }

  /** From any pending run, `canplay` and a resolved `play()` leave it pending with one more grace timer. */
  lemma PlayStartsGrace(ctx: Context, a: seq<Event>)
    requires RunTrace(ctx, a).Running?
    ensures RunTrace(ctx, a + [CanPlay, PlayResolved]).Running?
    ensures var p, q := RunTrace(ctx, a).pending, RunTrace(ctx, a + [CanPlay, PlayResolved]).pending;
            q == p.(graces := p.graces + 1)
  {
    RunTraceSnoc(ctx, a, CanPlay);
    RunTraceSnoc(ctx, a + [CanPlay], PlayResolved);
    assert a + [CanPlay] + [PlayResolved] == a + [CanPlay, PlayResolved];
  }

  /**
   The run timer expiring inside the 500 ms after `play()` resolved wins over
   the pass: the run is reported "Timed out" with the buffers gathered before.
   */
  lemma TimeoutInsideGraceWins(ctx: Context, a: seq<Event>, frame: Frame)
    requires RunTrace(ctx, a).Running?
    ensures RunTrace(ctx, a + [CanPlay, PlayResolved, Timeout, GraceElapsed(frame)]) ==
      Finished(Finish(ctx.test, RawFail("Timed out"), ConsoleLines(a), RelevantUrls(ctx.testId, a), NoFrame))
  {
    var b := a + [CanPlay, PlayResolved];
    PlayStartsGrace(ctx, a);
    RunningInvariant(ctx, a);
    RunTraceSnoc(ctx, b, Timeout);
    FirstFinishWins(ctx, b + [Timeout], [GraceElapsed(frame)]);
    assert b + [Timeout] + [GraceElapsed(frame)] == a + [CanPlay, PlayResolved, Timeout, GraceElapsed(frame)];
  }

  /** Without the timer in between, `canplay`, a resolved `play()` and the grace timer pass with that frame. */
  lemma PlaybackPasses(ctx: Context, a: seq<Event>, frame: Frame)
    requires RunTrace(ctx, a).Running?
    ensures RunTrace(ctx, a + [CanPlay, PlayResolved, GraceElapsed(frame)]) ==
      Finished(Finish(ctx.test, RawPass, ConsoleLines(a), RelevantUrls(ctx.testId, a), frame))
  {
    var b := a + [CanPlay, PlayResolved];
    PlayStartsGrace(ctx, a);
    RunningInvariant(ctx, a);
    RunTraceSnoc(ctx, b, GraceElapsed(frame));
    assert b + [GraceElapsed(frame)] == a + [CanPlay, PlayResolved, GraceElapsed(frame)];
  }

  /** The raw result each listener hands to `finishTest`, as a table. */
  function TableRaw(ctx: Context, e: Event): Option<Raw> {
    match e
    case VideoError(_, _) => Some(RawFail("Player error"))
    case PlayRejected(_) => Some(RawFail("Could not play"))
    case GraceElapsed(_) => Some(RawPass)
    case Timeout => Some(RawFail("Timed out"))
    case HlsError(fatal, _, _) =>
      if ctx.backend == HlsJs && ctx.supported && fatal then Some(RawFail("HLS.js fatal error")) else None
    case ShakaError(_) =>
      if ctx.backend == Shaka && ctx.supported then Some(RawFail("Shaka Player error")) else None
    case _ => None
  }

  /** The line a failing listener logs before it calls `finishTest`; the other listeners log nothing. */
  function TableLog(e: Event): seq<string> {
    match e
    case VideoError(code, message) => ["Video Error: code " + code + ", message: " + message]
    case PlayRejected(message) => ["Play promise rejected: " + message]
    case HlsError(_, errorType, details) => ["HLS.js Error: " + errorType + " - " + details]
    case ShakaError(code) => ["Shaka Player Error: " + code]
    case _ => []
  }

  /** An event can reach its listener: `play()` settles only when pending, a grace timer fires only when started. */
  predicate Enabled(p: Pending, e: Event) {
    (e.PlayResolved? || e.PlayRejected? ==> p.plays > 0) && (e.GraceElapsed? ==> p.graces > 0)
  }

  /** Event-to-result mapping: an enabled event finishes a pending run exactly when the table has a raw result for it. */
  lemma EventOutcomes(ctx: Context, p: Pending, e: Event)
    requires Enabled(p, e)
    ensures Step(ctx, Running(p), e).Finished? <==> TableRaw(ctx, e).Some?
    ensures Step(ctx, Running(p), e).Finished? ==>
      var r := Step(ctx, Running(p), e).result;
      var raw := TableRaw(ctx, e).value;
      && r.status == Finish(ctx.test, raw, p.logs, p.networkRequests, NoFrame).status
      && r.reason == Finish(ctx.test, raw, p.logs, p.networkRequests, NoFrame).reason
      && r.networkRequests == p.networkRequests
    ensures Step(ctx, Running(p), e).Finished? && !e.GraceElapsed? ==>
      Step(ctx, Running(p), e).result.logs == p.logs + TableLog(e)
    ensures Step(ctx, Running(p), e).Finished? && e.GraceElapsed? ==>
      Step(ctx, Running(p), e).result == Finish(ctx.test, RawPass, p.logs, p.networkRequests, e.frame)
  {
  }

  /** A non-fatal hls.js error is ignored. */
  lemma NonFatalHlsErrorIgnored(ctx: Context, p: Pending, errorType: string, details: string)
    ensures Step(ctx, Running(p), HlsError(false, errorType, details)) == Running(p)
  {
  }

  /**
   The worker broadcasts `network_request` without a `testId`; a run's id comes
   from `URLSearchParams.get`, which is a string or `null`, so such a message
   is never attributed to a run.
   */
  lemma UntaggedMessagesIgnored(testId: Tag, url: string)
    requires testId != Undefined
    ensures !Relevant(testId, Message(Text("network_request"), Undefined, url))
  {
  }

  /** A test expected to fail whose native playback errors out at once is a confirmed failure. */
  lemma ErrorConfirmsExpectedFailure(ctx: Context, code: string, message: string)
    requires ExpectsFailure(ctx.test) && ctx.backend == Native
    ensures RunTrace(ctx, [VideoError(code, message)]).Finished?
    ensures RunTrace(ctx, [VideoError(code, message)]).result.status == PASS
    ensures RunTrace(ctx, [VideoError(code, message)]).result.reason == Some("Player failed as expected: Player error")
  {
    var e := VideoError(code, message);
    assert [e][1..] == [];
    assert Start(ctx) == Running(Pending([], [], 0, 0));
    assert RunTrace(ctx, [e]) == Steps(ctx, Step(ctx, Start(ctx), e), []);
    var raw := RawFail("Player error");
    var logs := ["Video Error: code " + code + ", message: " + message];
    var c := CaptureFrame(raw, NoFrame, logs);
    assert Step(ctx, Start(ctx), e) == Finished(Finish(ctx.test, raw, logs, [], NoFrame));
    assert Finish(ctx.test, raw, logs, [], NoFrame) ==
      Invert(raw, Published(FAIL, Some("Player error"), c.logs, c.screenshot, []));
    assert "Player failed as expected: " + "Player error" == "Player failed as expected: Player error";
  }

  /** A catalog case expected to fail whose player errors out is reported as a pass. */
  lemma ExpectedFailureScenario(testId: Tag, code: string, message: string)
    ensures var posted := RunPage(19, testId, Text("native"), true, [VideoError(code, message)]);
            posted.Some? && posted.value.result.status == PASS &&
            posted.value.result.reason == Some("Player failed as expected: Player error")
  {
    ExpectsFailureHigh(19);
    ErrorConfirmsExpectedFailure(Context(Tests[19], testId, BackendOf(Text("native")), true), code, message);
  }
}
