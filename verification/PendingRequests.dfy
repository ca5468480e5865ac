/** One forwarded request on the server: what its frame handlers, its racing
    finishers and its body pump do, and what holds after any interleaving of
    them (internal/control/protocol_peer.go). */
module PendingRequests {
  import opened Protocol

  datatype Failure = ContextCanceled | IdleTimeout | TimedOut | Unavailable | OtherFailure(reason: string)

  /** The error passed to finish; Clean is nil. */
  datatype Verdict = Clean | Broken(err: Failure)

  datatype StreamState = StateWaiting | StateActive | StateFinished | StateCanceled | StateFailed

  /** A value sent on startCh. A finish before any response_start sends one that
      carries no start. */
  datatype StartResult = Started(status: int) | NotStarted(verdict: Verdict)

  datatype Pump = PumpWaiting | Writing(rest: seq<byte>) | PumpDone

  datatype Writer = WriterOpen | WriterBroken(err: Failure) | WriterEof

  /** The sections of finish after the mutex is released, in order. */
  datatype FinishStage =
    | BreakWriter | CloseChunks | AwaitPump | EndWriter | SendStart
    | SendDone | FreeSlot | CloseFinished | CancelContext | ReportUsage | Over

  function Rank(stage: FinishStage): nat {
    match stage
    case BreakWriter => 0 case CloseChunks => 1 case AwaitPump => 2 case EndWriter => 3
    case SendStart => 4 case SendDone => 5 case FreeSlot => 6 case CloseFinished => 7
    case CancelContext => 8 case ReportUsage => 9 case Over => 10
  }

  /** The one call of finish that found the request not yet completed. */
  datatype Finisher =
    | NoFinisher
    | Finishing(stage: FinishStage, verdict: Verdict, started: bool, sent: nat, received: nat)

  datatype UsageReport = UsageReport(bytesSent: nat, bytesReceived: nat)

  /** The fields of pendingRequest. `startSends` and `doneSends` list every value
      ever sent on the two capacity-1 channels, `reports` every call of
      CompleteRequest, `accepted` the bytes of all chunks put on responseChunks
      and `delivered` the bytes the body reader has got. */
  datatype Request = Request(
    state: StreamState,
    responseStart: bool,
    completed: bool,
    cancelSent: bool,
    bytesSent: nat,
    bytesReceived: nat,
    chunkCapacity: nat,
    chunks: seq<seq<byte>>,
    chunksClosed: bool,
    pump: Pump,
    writer: Writer,
    startSends: seq<StartResult>,
    doneSends: seq<Verdict>,
    released: bool,
    finishedClosed: bool,
    contextDone: bool,
    reports: seq<UsageReport>,
    finisher: Finisher,
    accepted: seq<byte>,
    delivered: seq<byte>)

  function NewRequest(flow: FlowControl): Request {
    Request(StateWaiting, false, false, false, 0, 0, flow.BufferedFrameCapacity(), [], false,
            PumpWaiting, WriterOpen, [], [], false, false, false, [], NoFinisher, [], [])
  }

  datatype FrameError = NoError | AfterCompletion | DuplicateStart | BeforeStart | ContextEnded

  /** handleResponseStart. */
  function HandleStart(r: Request, status: int): (Request, FrameError) {
    if r.completed then (r, AfterCompletion)
    else if r.responseStart then (r, DuplicateStart)
    else (r.(responseStart := true, state := StateActive, startSends := r.startSends + [Started(status)]), NoError)
  }

  predicate HasRoom(r: Request, chunk: seq<byte>) {
    r.completed || !r.responseStart || chunk == [] || |r.chunks| < r.chunkCapacity
  }

  /** writeResponseBody with its check and its channel send taken as one step;
      the send waits for room. */
  function WriteBody(r: Request, chunk: seq<byte>): (Request, FrameError) {
    if r.completed then (r, AfterCompletion)
    else if !r.responseStart then (r, BeforeStart)
    else
      var touched := r.(bytesReceived := r.bytesReceived + |chunk|);
      if chunk == [] then (touched, NoError)
      else (touched.(chunks := r.chunks + [chunk], accepted := r.accepted + chunk), NoError)
  }

  /** writeResponseBody when its select sees the context done: the bytes are
      counted but the chunk is dropped. */
  function RefuseBody(r: Request, chunk: seq<byte>): (Request, FrameError) {
    if r.completed then (r, AfterCompletion)
    else if !r.responseStart then (r, BeforeStart)
    else (r.(bytesReceived := r.bytesReceived + |chunk|), ContextEnded)
  }

  function TerminalState(verdict: Verdict): StreamState {
    match verdict
    case Clean => StateFinished
    case Broken(err) =>
      if err.ContextCanceled? || err.IdleTimeout? || err.TimedOut? then StateCanceled else StateFailed
  }

  /** The locked section of finish: the first call wins. */
  function BeginFinish(r: Request, verdict: Verdict): Request {
    if r.completed then r
    else r.(completed := true, state := TerminalState(verdict),
            finisher := Finishing(BreakWriter, verdict, r.responseStart, r.bytesSent, r.bytesReceived))
  }

  /** The next section of finish can run; it waits for the pump, and for room in
      the two capacity-1 channels (nobody needs to have received from them). */
  predicate CanContinue(r: Request) {
    && r.finisher.Finishing?
    && (match r.finisher.stage
        case AwaitPump => r.pump.PumpDone?
        case SendStart => r.finisher.started || |r.startSends| < 1
        case SendDone => |r.doneSends| < 1
        case Over => false
        case _ => true)
  }

  function Next(stage: FinishStage): FinishStage {
    match stage
    case BreakWriter => CloseChunks
    case CloseChunks => AwaitPump
    case AwaitPump => EndWriter
    case EndWriter => SendStart
    case SendStart => SendDone
    case SendDone => FreeSlot
    case FreeSlot => CloseFinished
    case CloseFinished => CancelContext
    case CancelContext => ReportUsage
    case ReportUsage => Over
    case Over => Over
  }

  /** The writer is closed with the error before the chunk channel closes, or
      cleanly once the pump is done. */
  function WriterAfter(f: Finisher, writer: Writer): Writer
    requires f.Finishing?
  {
    if f.stage.BreakWriter? && f.verdict.Broken? then WriterBroken(f.verdict.err)
    else if f.stage.EndWriter? && f.verdict.Clean? then WriterEof
    else writer
  }

  function ContinueFinish(r: Request): Request
    requires CanContinue(r)
  {
    var f := r.finisher;
    r.(writer := WriterAfter(f, r.writer),
       chunksClosed := r.chunksClosed || f.stage.CloseChunks?,
       startSends := if f.stage.SendStart? && !f.started then r.startSends + [NotStarted(f.verdict)] else r.startSends,
       doneSends := if f.stage.SendDone? then r.doneSends + [f.verdict] else r.doneSends,
       released := r.released || f.stage.FreeSlot?,
       finishedClosed := r.finishedClosed || f.stage.CloseFinished?,
       contextDone := r.contextDone || f.stage.CancelContext?,
       reports := if f.stage.ReportUsage? then r.reports + [UsageReport(f.sent, f.received)] else r.reports,
       finisher := f.(stage := Next(f.stage)))
  }

  /** The locked section of cancel. A true result goes on to send the cancel
      frame and to call finish. */
  function MarkCancel(r: Request): (Request, bool) {
    if r.completed || r.cancelSent then (r, false)
    else (r.(cancelSent := true, state := StateCanceled), true)
  }

  datatype Step =
    | StartFrame(status: int)
    | BodyFrame(chunk: seq<byte>)
    | BodyRefused(chunk: seq<byte>)
    | FinishCalled(verdict: Verdict)
    | FinishContinues
    | CancelCalled
    | RequestBytesSent(n: nat)
    | PumpTakes
    | PumpAborts
    | PumpExits
    | ReaderReads(n: nat)
    | SlotReleased
    | ContextEnds

  predicate Enabled(r: Request, step: Step) {
    match step
    case BodyFrame(chunk) => HasRoom(r, chunk)
    case BodyRefused(chunk) => r.contextDone && chunk != []
    case FinishContinues => CanContinue(r)
    case PumpTakes => r.pump.PumpWaiting? && r.chunks != []
    case PumpAborts => r.pump.Writing? && r.writer.WriterBroken?
    case PumpExits => r.pump.PumpWaiting? && r.chunks == [] && r.chunksClosed
    case ReaderReads(n) => r.pump.Writing? && r.writer.WriterOpen? && 0 < n <= |r.pump.rest|
    case _ => true
  }

  function Apply(r: Request, step: Step): Request
    requires Enabled(r, step)
  {
    match step
    case StartFrame(status) => HandleStart(r, status).0
    case BodyFrame(chunk) => WriteBody(r, chunk).0
    case BodyRefused(chunk) => RefuseBody(r, chunk).0
    case FinishCalled(verdict) => BeginFinish(r, verdict)
    case FinishContinues => ContinueFinish(r)
    case CancelCalled => MarkCancel(r).0
    case RequestBytesSent(n) => r.(bytesSent := r.bytesSent + n)
    case PumpTakes => r.(pump := Writing(r.chunks[0]), chunks := r.chunks[1..])
    case PumpAborts => r.(pump := PumpDone)
    case PumpExits => r.(pump := PumpDone)
    case ReaderReads(n) =>
      var rest := r.pump.rest[n..];
      r.(delivered := r.delivered + r.pump.rest[..n], pump := if rest == [] then PumpWaiting else Writing(rest))
    case SlotReleased => r.(released := true)
    case ContextEnds => r.(contextDone := true)
  }

  ghost predicate Feasible(r: Request, steps: seq<Step>)
    decreases |steps|
  {
    steps == [] || (Enabled(r, steps[0]) && Feasible(Apply(r, steps[0]), steps[1..]))
  }

  ghost function Run(r: Request, steps: seq<Step>): Request
    requires Feasible(r, steps)
    decreases |steps|
  {
    if steps == [] then r else Run(Apply(r, steps[0]), steps[1..])
  }

  // The invariant.

  function Flatten(chunks: seq<seq<byte>>): seq<byte> {
    if chunks == [] then [] else chunks[0] + Flatten(chunks[1..])
  }

  lemma {:induction false} FlattenAppend(chunks: seq<seq<byte>>, chunk: seq<byte>)
    ensures Flatten(chunks + [chunk]) == Flatten(chunks) + chunk
  {
    if chunks == [] {
      assert Flatten([chunk]) == chunk + Flatten([]);
    } else {
      assert (chunks + [chunk])[1..] == chunks[1..] + [chunk];
      FlattenAppend(chunks[1..], chunk);
    }
  }

  function InPump(pump: Pump): seq<byte> {
    if pump.Writing? then pump.rest else []
  }

  /** The stages a finisher has behind it, read off the fields they set. */
  predicate Staged(r: Request) {
    && (forall i | 0 <= i < |r.chunks| :: r.chunks[i] != [])
    && (r.pump.Writing? ==> r.pump.rest != [])
    && StagedBy(r, r.finisher)
  }

  predicate StagedBy(r: Request, finisher: Finisher) {
    match finisher
    case NoFinisher =>
      && !r.completed && r.writer.WriterOpen? && !r.chunksClosed && !r.pump.PumpDone?
      && |r.startSends| == (if r.responseStart then 1 else 0)
      && r.doneSends == [] && r.reports == [] && !r.finishedClosed
    case Finishing(stage, verdict, started, sent, received) =>
      && r.completed && r.state == TerminalState(verdict) && started == r.responseStart
      && r.writer == (if verdict.Broken? then if Rank(stage) > 0 then WriterBroken(verdict.err) else WriterOpen
                      else if Rank(stage) > 3 then WriterEof else WriterOpen)
      && (r.chunksClosed <==> Rank(stage) > 1)
      && (Rank(stage) > 2 ==> r.pump.PumpDone?)
      && (r.pump.PumpDone? ==> r.writer.WriterBroken? || (r.chunksClosed && r.chunks == []))
      && |r.startSends| == (if r.responseStart || Rank(stage) > 4 then 1 else 0)
      && r.doneSends == (if Rank(stage) > 5 then [verdict] else [])
      && (Rank(stage) > 6 ==> r.released)
      && (r.finishedClosed <==> Rank(stage) > 7)
      && r.reports == (if Rank(stage) > 9 then [UsageReport(sent, received)] else [])
  }

  /** Bytes reach the reader in order, and none goes missing unless the writer
      was closed with an error. */
  predicate InOrder(r: Request) {
    && (!r.writer.WriterBroken? ==> r.delivered + InPump(r.pump) + Flatten(r.chunks) == r.accepted)
    && r.delivered <= r.accepted
  }

  predicate Sound(r: Request) {
    Staged(r) && InOrder(r)
  }

  lemma StagedContinue(r: Request)
    requires Staged(r) && CanContinue(r)
    ensures Staged(ContinueFinish(r))
  {
  }

  lemma StagedStep(r: Request, step: Step)
    requires Staged(r) && Enabled(r, step)
    ensures Staged(Apply(r, step))
  {
    if step.FinishContinues? {
      StagedContinue(r);
    }
  }

  lemma InOrderBody(r: Request, chunk: seq<byte>)
    requires Staged(r) && InOrder(r)
    ensures InOrder(WriteBody(r, chunk).0)
  {
    FlattenAppend(r.chunks, chunk);
    var gone, left := r.delivered + InPump(r.pump), Flatten(r.chunks);
    assert (gone + left) + chunk == gone + (left + chunk);
  }

  lemma InOrderTake(r: Request)
    requires InOrder(r) && Enabled(r, PumpTakes)
    ensures InOrder(Apply(r, PumpTakes))
  {
    var first, later := r.chunks[0], Flatten(r.chunks[1..]);
    assert r.delivered + [] + (first + later) == r.delivered + first + later;
  }

  lemma InOrderRead(r: Request, n: nat)
    requires InOrder(r) && Enabled(r, ReaderReads(n))
    ensures InOrder(Apply(r, ReaderReads(n)))
  {
    var rest, later := r.pump.rest, Flatten(r.chunks);
    assert rest == rest[..n] + rest[n..];
    assert r.delivered + rest + later == (r.delivered + rest[..n]) + rest[n..] + later;
  }

  lemma InOrderStep(r: Request, step: Step)
    requires Staged(r) && InOrder(r) && Enabled(r, step)
    ensures InOrder(Apply(r, step))
  {
    match step {
      case BodyFrame(chunk) => InOrderBody(r, chunk);
      case PumpTakes => InOrderTake(r);
      case ReaderReads(n) => InOrderRead(r, n);
      case FinishContinues => InOrderContinue(r);
      case _ =>
    }
  }

  lemma InOrderContinue(r: Request)
    requires Staged(r) && InOrder(r) && CanContinue(r)
    ensures InOrder(ContinueFinish(r))
  {
  }

  lemma {:induction false} SoundRun(r: Request, steps: seq<Step>)
    requires Sound(r) && Feasible(r, steps)
    ensures Sound(Run(r, steps))
    decreases |steps|
  {
    if steps != [] {
      StagedStep(r, steps[0]);
      InOrderStep(r, steps[0]);
      SoundRun(Apply(r, steps[0]), steps[1..]);
    }
  }

  // What follows for every interleaving from a new request.

  /** Each of startCh and doneCh is sent at most one value, so neither send of
      finish can wait for a receiver; usage is reported at most once; and the
      value on doneCh is the winner's verdict. */
  lemma CompletesOnce(flow: FlowControl, steps: seq<Step>)
    requires Feasible(NewRequest(flow), steps)
    ensures var r := Run(NewRequest(flow), steps);
      && |r.startSends| <= 1 && |r.doneSends| <= 1 && |r.reports| <= 1
      && (r.finisher.Finishing? && !r.finisher.stage.AwaitPump? && !r.finisher.stage.Over? ==> CanContinue(r))
      && (r.doneSends != [] ==> r.finisher.Finishing? && r.doneSends == [r.finisher.verdict])
      && (r.finisher.Finishing? && r.finisher.stage.Over? ==>
            |r.startSends| == |r.doneSends| == |r.reports| == 1 && r.released && r.finishedClosed)
  {
    SoundRun(NewRequest(flow), steps);
  }

  /** The body reader gets a prefix of what was accepted, in order, always; it
      sees a clean end only after a clean finish, with everything accepted
      delivered and nothing accepted afterwards. */
  lemma CleanEndIsComplete(flow: FlowControl, steps: seq<Step>)
    requires Feasible(NewRequest(flow), steps)
    ensures var r := Run(NewRequest(flow), steps);
      && r.delivered <= r.accepted
      && (r.writer.WriterEof? ==>
            && r.delivered == r.accepted && r.completed
            && r.finisher.Finishing? && r.finisher.verdict.Clean?)
  {
    SoundRun(NewRequest(flow), steps);
  }

  /** Once completed, no later event changes the outcome: state, verdict and
      accepted bytes stay, and what was sent on the channels stays sent. */
  lemma OutcomeIsFinal(r: Request, step: Step)
    requires Sound(r) && r.completed && Enabled(r, step)
    ensures var r' := Apply(r, step);
      && r'.completed && r'.state == r.state && r'.accepted == r.accepted
      && r'.finisher.Finishing? && r'.finisher.verdict == r.finisher.verdict
      && r.startSends <= r'.startSends && r.doneSends <= r'.doneSends && r.reports <= r'.reports
  {
    if step.FinishContinues? {
      ContinueKeepsOutcome(r);
    }
  }

  lemma ContinueKeepsOutcome(r: Request)
    requires CanContinue(r)
    ensures var r' := ContinueFinish(r);
      && r'.completed == r.completed && r'.state == r.state && r'.accepted == r.accepted
      && r'.finisher.Finishing? && r'.finisher.verdict == r.finisher.verdict
      && r.startSends <= r'.startSends && r.doneSends <= r'.doneSends && r.reports <= r'.reports
  {
  }

  lemma {:induction false} OutcomeIsFinalRun(r: Request, steps: seq<Step>)
    requires Sound(r) && r.completed && Feasible(r, steps)
    ensures var r' := Run(r, steps);
      && r'.completed && r'.state == r.state && r'.accepted == r.accepted
      && r'.finisher.Finishing? && r'.finisher.verdict == r.finisher.verdict
      && r.startSends <= r'.startSends && r.doneSends <= r'.doneSends && r.reports <= r'.reports
    decreases |steps|
  {
    if steps != [] {
      OutcomeIsFinal(r, steps[0]);
      StagedStep(r, steps[0]);
      InOrderStep(r, steps[0]);
      OutcomeIsFinalRun(Apply(r, steps[0]), steps[1..]);
    }
  }

  // Chunks dropped because the context ended.

  /** A body frame is neither too early nor too late. */
  predicate Open(r: Request) {
    r.responseStart && !r.completed
  }

  function OfferedBy(r: Request, step: Step): seq<byte> {
    if Open(r) && step.BodyFrame? then step.chunk else if Open(r) && step.BodyRefused? then step.chunk else []
  }

  function DroppedBy(r: Request, step: Step): nat {
    if Open(r) && step.BodyRefused? then |step.chunk| else 0
  }

  /** The bytes of the body frames handled while the request was open, whether put
      on the channel or dropped. */
  ghost function Offered(r: Request, steps: seq<Step>): seq<byte>
    requires Feasible(r, steps)
    decreases |steps|
  {
    if steps == [] then [] else OfferedBy(r, steps[0]) + Offered(Apply(r, steps[0]), steps[1..])
  }

  ghost function Dropped(r: Request, steps: seq<Step>): nat
    requires Feasible(r, steps)
    decreases |steps|
  {
    if steps == [] then 0 else DroppedBy(r, steps[0]) + Dropped(Apply(r, steps[0]), steps[1..])
  }

  lemma StepOffers(r: Request, step: Step)
    requires Enabled(r, step)
    ensures Apply(r, step).accepted == if DroppedBy(r, step) == 0 then r.accepted + OfferedBy(r, step) else r.accepted
    ensures DroppedBy(r, step) > 0 ==> DroppedBy(r, step) == |OfferedBy(r, step)| && r.contextDone
    ensures r.contextDone ==> Apply(r, step).contextDone
  {
  }

  lemma {:induction false} OfferedSizes(r: Request, steps: seq<Step>)
    requires Feasible(r, steps)
    ensures |Run(r, steps).accepted| + Dropped(r, steps) == |r.accepted| + |Offered(r, steps)|
    ensures Dropped(r, steps) == 0 ==> Run(r, steps).accepted == r.accepted + Offered(r, steps)
    ensures r.contextDone || Dropped(r, steps) > 0 ==> Run(r, steps).contextDone
    decreases |steps|
  {
    if steps != [] {
      StepOffers(r, steps[0]);
      OfferedSizes(Apply(r, steps[0]), steps[1..]);
    }
  }

  predicate IsBody(step: Step) {
    step.BodyFrame? || step.BodyRefused?
  }

  /** A body frame that finds the request open and its context ended: the select of
      writeResponseBody may then take either branch. */
  predicate MeetsEndedContext(r: Request, step: Step) {
    IsBody(step) && step.chunk != [] && Open(r) && r.contextDone
  }

  ghost predicate NoneMeets(r: Request, steps: seq<Step>)
    requires Feasible(r, steps)
    decreases |steps|
  {
    steps == [] || (!MeetsEndedContext(r, steps[0]) && NoneMeets(Apply(r, steps[0]), steps[1..]))
  }

  predicate SameButChoice(a: Step, b: Step) {
    a == b || (IsBody(a) && IsBody(b) && a.chunk == b.chunk)
  }

  /** The same events up to some point, the selects choosing as they may. */
  predicate Chosen(steps: seq<Step>, other: seq<Step>) {
    |other| <= |steps| && forall i | 0 <= i < |other| :: SameButChoice(steps[i], other[i])
  }

  lemma SameEffect(r: Request, a: Step, b: Step)
    requires Enabled(r, a) && Enabled(r, b) && SameButChoice(a, b) && !MeetsEndedContext(r, a)
    ensures Apply(r, b) == Apply(r, a) && DroppedBy(r, b) == 0
  {
  }

  lemma {:induction false} NothingDropped(r: Request, steps: seq<Step>, other: seq<Step>)
    requires Feasible(r, steps) && Feasible(r, other) && Chosen(steps, other) && NoneMeets(r, steps)
    ensures Dropped(r, other) == 0
    decreases |steps|
  {
    if other != [] {
      SameEffect(r, steps[0], other[0]);
      assert forall i | 0 <= i < |other[1..]| :: SameButChoice(steps[1..][i], other[1..][i]);
      NothingDropped(Apply(r, steps[0]), steps[1..], other[1..]);
    }
  }

  /** At the first such frame the select takes the context's end. */
  lemma {:induction false} SomethingDropped(r: Request, steps: seq<Step>) returns (other: seq<Step>)
    requires Feasible(r, steps) && !NoneMeets(r, steps)
    ensures Feasible(r, other) && Chosen(steps, other) && Dropped(r, other) > 0
    decreases |steps|
  {
    if MeetsEndedContext(r, steps[0]) {
      var refused := BodyRefused(steps[0].chunk);
      other := [refused];
      assert other[1..] == [];
      assert Feasible(Apply(r, refused), other[1..]);
      assert Dropped(r, other) == DroppedBy(r, refused) + Dropped(Apply(r, refused), other[1..]);
    } else {
      var rest := SomethingDropped(Apply(r, steps[0]), steps[1..]);
      other := [steps[0]] + rest;
      assert other[1..] == rest;
      forall i | 0 <= i < |other| ensures SameButChoice(steps[i], other[i]) {
        if i > 0 {
          assert SameButChoice(steps[1..][i - 1], rest[i - 1]);
        }
      }
    }
  }

  ghost predicate AcceptsOn(r: Request, steps: seq<Step>, other: seq<Step>) {
    Chosen(steps, other) && Feasible(r, other) ==> Run(r, other).accepted == r.accepted + Offered(r, other)
  }

  /** Everything offered in a run is accepted, in order, however the selects choose,
      exactly when no body frame in it finds the request open with its context
      ended. */
  lemma AcceptsAllExactly(r: Request, steps: seq<Step>)
    requires Feasible(r, steps)
    ensures (forall other: seq<Step> :: AcceptsOn(r, steps, other)) <==> NoneMeets(r, steps)
  {
    if NoneMeets(r, steps) {
      forall other: seq<Step> ensures AcceptsOn(r, steps, other) {
        if Chosen(steps, other) && Feasible(r, other) {
          NothingDropped(r, steps, other);
          OfferedSizes(r, other);
        }
      }
    } else {
      var other := SomethingDropped(r, steps);
      OfferedSizes(r, other);
      assert |Run(r, other).accepted| < |r.accepted + Offered(r, other)|;
      assert !AcceptsOn(r, steps, other);
    }
  }

  lemma OneMore(r: Request, step: Step, rest: seq<Step>) returns (steps: seq<Step>)
    requires Enabled(r, step) && Feasible(Apply(r, step), rest)
    ensures Feasible(r, steps) && Run(r, steps) == Run(Apply(r, step), rest)
    ensures Offered(r, steps) == OfferedBy(r, step) + Offered(Apply(r, step), rest)
  {
    steps := [step] + rest;
    assert steps[1..] == rest;
  }

  /** An open request with one byte waiting for its pump. */
  lemma ReadOne(r: Request) returns (steps: seq<Step>)
    requires r.pump == PumpWaiting && r.chunks == [[2]] && r.writer.WriterOpen? && r.delivered == []
    ensures Feasible(r, steps) && Run(r, steps).delivered == [2] && Offered(r, steps) == []
  {
    var taken := Apply(r, PumpTakes);
    steps := OneMore(taken, ReaderReads(1), []);
    steps := OneMore(r, PumpTakes, steps);
  }

  lemma DropThenAccept(r: Request) returns (steps: seq<Step>)
    requires Open(r) && r.contextDone && r.chunkCapacity >= 1
    requires r.pump == PumpWaiting && r.chunks == [] && r.writer.WriterOpen? && r.delivered == []
    ensures Feasible(r, steps) && Run(r, steps).delivered == [2] && Offered(r, steps) == [1, 2]
  {
    var dropped := Apply(r, BodyRefused([1]));
    steps := ReadOne(Apply(dropped, BodyFrame([2])));
    steps := OneMore(dropped, BodyFrame([2]), steps);
    steps := OneMore(r, BodyRefused([1]), steps);
  }

  /** A dropped chunk can be followed by an accepted one: what the reader gets is
      then not even a prefix of what was sent. */
  lemma DroppedChunkLeavesGap(flow: FlowControl) returns (steps: seq<Step>)
    ensures Feasible(NewRequest(flow), steps)
    ensures Run(NewRequest(flow), steps).delivered == [2] && Offered(NewRequest(flow), steps) == [1, 2]
  {
    var r := NewRequest(flow);
    var started := Apply(r, StartFrame(200));
    steps := DropThenAccept(Apply(started, ContextEnds));
    steps := OneMore(started, ContextEnds, steps);
    steps := OneMore(r, StartFrame(200), steps);
  }

  // A finish gets to its end.

  predicate Ending(r: Request) {
    Staged(r) && r.finisher.Finishing?
  }

  /** The finisher's next section, or what it waits for: a move of the pump, or, for
      an open writer, the body reader reading what the pump holds. */
  function EndingStep(r: Request): Step
    requires Ending(r) && !r.finisher.stage.Over?
  {
    if CanContinue(r) then FinishContinues
    else if r.pump.Writing? then if r.writer.WriterBroken? then PumpAborts else ReaderReads(|r.pump.rest|)
    else if r.chunks != [] then PumpTakes
    else PumpExits
  }

  function Remaining(r: Request): nat
    requires r.finisher.Finishing?
  {
    10 - Rank(r.finisher.stage) + 2 * |r.chunks|
    + (match r.pump case PumpWaiting => 1 case Writing(_) => 2 case PumpDone => 0)
  }

  lemma EndingDescends(r: Request)
    requires Ending(r) && !r.finisher.stage.Over?
    ensures Enabled(r, EndingStep(r)) && (r.finisher.verdict.Broken? ==> !EndingStep(r).ReaderReads?)
    ensures var r' := Apply(r, EndingStep(r));
      Ending(r') && Remaining(r') < Remaining(r) && r'.finisher.verdict == r.finisher.verdict
  {
    StagedStep(r, EndingStep(r));
  }

  /** Whatever the body reader does or fails to do, a request finished with an
      error reaches the end of finish by moves of the finisher and the pump
      alone; its verdict has been sent, its slot freed and its usage reported. A
      clean finish needs, besides, a reader that reads. */
  lemma {:induction false} FinishCompletes(r: Request) returns (steps: seq<Step>)
    requires Ending(r)
    ensures Feasible(r, steps)
    ensures forall i | 0 <= i < |steps| ::
              steps[i].FinishContinues? || steps[i].PumpTakes? || steps[i].PumpAborts? || steps[i].PumpExits?
              || (steps[i].ReaderReads? && r.finisher.verdict.Clean?)
    ensures var r' := Run(r, steps);
      && r'.finisher.Finishing? && r'.finisher.stage.Over? && r'.finisher.verdict == r.finisher.verdict
      && r'.doneSends == [r.finisher.verdict] && r'.released && |r'.reports| == 1
    decreases Remaining(r)
  {
    if r.finisher.stage.Over? {
      steps := [];
    } else {
      EndingDescends(r);
      var rest := FinishCompletes(Apply(r, EndingStep(r)));
      steps := [EndingStep(r)] + rest;
      assert steps[1..] == rest;
    }
  }
}
