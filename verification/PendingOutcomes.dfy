/** What becomes of a pending request, told from the events alone: the value its
    waiter gets, its verdict and state, its byte counts and its cancel frame
    (internal/control/protocol_peer.go). */
module PendingOutcomes {
  import opened Options
  import opened Protocol
  import opened PendingRequests

  /** The status of the first response_start, the verdict of the first finish, the
      body bytes received and sent, whether somebody cancelled, and which of the
      first start and the first cancel came last, all as of the first finish. */
  datatype Story = Story(
    start: Option<int>, winner: Option<Verdict>, received: nat, sent: nat, cancelled: bool, last: StreamState)

  const UNTOLD := Story(None, None, 0, 0, false, StateWaiting)

  function Tell(s: Story, step: Step): Story {
    if s.winner.Some? then s else
    match step
    case StartFrame(status) => if s.start.None? then s.(start := Some(status), last := StateActive) else s
    case BodyFrame(chunk) => if s.start.Some? then s.(received := s.received + |chunk|) else s
    case BodyRefused(chunk) => if s.start.Some? then s.(received := s.received + |chunk|) else s
    case FinishCalled(verdict) => s.(winner := Some(verdict))
    case CancelCalled => if s.cancelled then s else s.(cancelled := true, last := StateCanceled)
    case RequestBytesSent(n) => s.(sent := s.sent + n)
    case _ => s
  }

  function TellAll(s: Story, steps: seq<Step>): Story
    decreases |steps|
  {
    if steps == [] then s else TellAll(Tell(s, steps[0]), steps[1..])
  }

  /** The stage of the winning finish, zero when there is none. */
  function Progress(f: Finisher): nat {
    if f.Finishing? then Rank(f.stage) else 0
  }

  /** A time-out or a cancellation ends a stream as canceled, any other error as
      failed, and no error as finished. */
  predicate StateTells(state: StreamState, verdict: Verdict) {
    && (state.StateFinished? <==> verdict == Clean)
    && (state.StateCanceled? <==> verdict in {Broken(ContextCanceled), Broken(IdleTimeout), Broken(TimedOut)})
    && (state.StateFinished? || state.StateCanceled? || state.StateFailed?)
  }

  predicate Tracks(r: Request, s: Story) {
    && (r.completed <==> s.winner.Some?) && (r.responseStart <==> s.start.Some?)
    && r.cancelSent == s.cancelled && (Progress(r.finisher) > 8 ==> r.contextDone)
    && (match s.winner
        case None =>
          r.finisher.NoFinisher? && r.bytesReceived == s.received && r.bytesSent == s.sent && r.state == s.last
        case Some(verdict) =>
          && r.finisher.Finishing? && r.finisher.verdict == verdict && r.finisher.started == s.start.Some?
          && r.finisher.received == s.received && r.finisher.sent == s.sent && StateTells(r.state, verdict))
    && r.startSends == (if s.start.Some? then [Started(s.start.value)]
                        else if Progress(r.finisher) > 4 && s.winner.Some? then [NotStarted(s.winner.value)] else [])
  }

  lemma TracksContinue(r: Request, s: Story)
    requires Tracks(r, s) && CanContinue(r)
    ensures Tracks(ContinueFinish(r), s)
  {
  }

  lemma TracksStep(r: Request, s: Story, step: Step)
    requires Tracks(r, s) && Enabled(r, step)
    ensures Tracks(Apply(r, step), Tell(s, step))
  {
    match step {
      case FinishContinues => TracksContinue(r, s);
      case _ =>
    }
  }

  lemma {:induction false} TracksRun(r: Request, s: Story, steps: seq<Step>)
    requires Tracks(r, s) && Feasible(r, steps)
    ensures Tracks(Run(r, steps), TellAll(s, steps))
    decreases |steps|
  {
    if steps != [] {
      TracksStep(r, s, steps[0]);
      TracksRun(Apply(r, steps[0]), Tell(s, steps[0]), steps[1..]);
    }
  }

  /** Over every interleaving from a new request: the value on startCh is the status
      of the first response_start handled, or, once a finish that no start preceded
      has come that far, its verdict without a start; the value on doneCh is the
      verdict of the first finish, and the state says which kind it was, or before it
      whether the first start or the first cancel came last; and the usage report
      gives the body bytes received and sent before that finish, made when the slot is
      free, finishedCh closed and the context cancelled. */
  lemma OutcomeIsTold(flow: FlowControl, steps: seq<Step>)
    requires Feasible(NewRequest(flow), steps)
    ensures var r, s := Run(NewRequest(flow), steps), TellAll(UNTOLD, steps);
      && r.startSends == (if s.start.Some? then [Started(s.start.value)]
                          else if Progress(r.finisher) > 4 && s.winner.Some? then [NotStarted(s.winner.value)] else [])
      && r.doneSends == (if Progress(r.finisher) > 5 && s.winner.Some? then [s.winner.value] else [])
      && (s.winner.Some? <==> r.completed) && (s.winner.Some? ==> StateTells(r.state, s.winner.value))
      && (s.winner.None? ==> r.state == s.last)
      && r.reports == (if Progress(r.finisher) > 9 then [UsageReport(s.sent, s.received)] else [])
      && (Progress(r.finisher) > 9 ==> r.released && r.finishedClosed && r.contextDone)
  {
    SoundRun(NewRequest(flow), steps);
    TracksRun(NewRequest(flow), UNTOLD, steps);
  }

  /** How many cancel frames are sent. */
  ghost function CancelFrames(r: Request, steps: seq<Step>): nat
    requires Feasible(r, steps)
    decreases |steps|
  {
    if steps == [] then 0 else
    (if steps[0].CancelCalled? && MarkCancel(r).1 then 1 else 0) + CancelFrames(Apply(r, steps[0]), steps[1..])
  }

  lemma {:induction false} CancelFramesTold(r: Request, s: Story, steps: seq<Step>)
    requires Tracks(r, s) && Feasible(r, steps)
    ensures CancelFrames(r, steps) == if TellAll(s, steps).cancelled && !s.cancelled then 1 else 0
    decreases |steps|
  {
    if steps != [] {
      TracksStep(r, s, steps[0]);
      CancelFramesTold(Apply(r, steps[0]), Tell(s, steps[0]), steps[1..]);
      if Tell(s, steps[0]).cancelled {
        CancelledStays(Tell(s, steps[0]), steps[1..]);
      }
    }
  }

  lemma {:induction false} CancelledStays(s: Story, steps: seq<Step>)
    requires s.cancelled
    ensures TellAll(s, steps).cancelled
    decreases |steps|
  {
    if steps != [] {
      CancelledStays(Tell(s, steps[0]), steps[1..]);
    }
  }

  /** However many goroutines cancel a request, one cancel frame is sent if one of
      them came before the first finish, and none otherwise. */
  lemma OneCancelFrame(flow: FlowControl, steps: seq<Step>)
    requires Feasible(NewRequest(flow), steps)
    ensures CancelFrames(NewRequest(flow), steps) == if TellAll(UNTOLD, steps).cancelled then 1 else 0
  {
    CancelFramesTold(NewRequest(flow), UNTOLD, steps);
  }

  lemma RoomContinue(r: Request)
    requires CanContinue(r)
    ensures ContinueFinish(r).chunks == r.chunks && ContinueFinish(r).chunkCapacity == r.chunkCapacity
  {
  }

  lemma RoomStep(r: Request, step: Step)
    requires |r.chunks| <= r.chunkCapacity && Enabled(r, step)
    ensures |Apply(r, step).chunks| <= Apply(r, step).chunkCapacity == r.chunkCapacity
  {
    match step {
      case FinishContinues => RoomContinue(r);
      case _ =>
    }
  }

  lemma {:induction false} RoomRun(r: Request, steps: seq<Step>)
    requires |r.chunks| <= r.chunkCapacity && Feasible(r, steps)
    ensures |Run(r, steps).chunks| <= Run(r, steps).chunkCapacity == r.chunkCapacity
    decreases |steps|
  {
    if steps != [] {
      RoomStep(r, steps[0]);
      RoomRun(Apply(r, steps[0]), steps[1..]);
    }
  }

  /** Frames of a full chunk, of which one fewer than the capacity do not hold the
      configured bytes. */
  lemma FramesHold(capacity: nat, bytes: int, n: nat)
    requires (capacity - 1) * DEFAULT_BODY_CHUNK_SIZE < bytes <= capacity * DEFAULT_BODY_CHUNK_SIZE
    ensures n < capacity <==> n * DEFAULT_BODY_CHUNK_SIZE < bytes
  {
    if n < capacity {
      assert n * DEFAULT_BODY_CHUNK_SIZE <= (capacity - 1) * DEFAULT_BODY_CHUNK_SIZE;
    } else {
      assert n * DEFAULT_BODY_CHUNK_SIZE >= capacity * DEFAULT_BODY_CHUNK_SIZE;
    }
  }

  /** Over every run, an open request that has started takes a further body frame
      exactly while the frames it buffers, at a full chunk each, are fewer than hold
      its configured bytes; so it never buffers more than that. */
  lemma BufferIsBounded(flow: FlowControl, steps: seq<Step>, chunk: seq<byte>)
    requires Feasible(NewRequest(flow), steps) && chunk != []
    ensures var r := Run(NewRequest(flow), steps);
      var bytes := flow.Normalize().bufferedBytesPerStream;
      && (!r.completed && r.responseStart ==>
            (Enabled(r, BodyFrame(chunk)) <==> |r.chunks| * DEFAULT_BODY_CHUNK_SIZE < bytes))
      && (|r.chunks| - 1) * DEFAULT_BODY_CHUNK_SIZE < bytes
  {
    RoomRun(NewRequest(flow), steps);
    var n, capacity := |Run(NewRequest(flow), steps).chunks|, flow.BufferedFrameCapacity();
    FramesHold(capacity, flow.Normalize().bufferedBytesPerStream, n);
    assert (n - 1) * DEFAULT_BODY_CHUNK_SIZE <= (capacity - 1) * DEFAULT_BODY_CHUNK_SIZE;
  }
}
