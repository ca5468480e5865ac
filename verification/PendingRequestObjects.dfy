/** A pending request as an object: one method per section of its operations, and
    finish as the sequence of them (internal/control/protocol_peer.go). */
module PendingRequestObjects {
  import opened Protocol
  import opened PendingRequests

  /** A finisher at a stage it need not wait at, or past the pump. */
  ghost predicate At(r: Request, stage: FinishStage, verdict: Verdict) {
    Sound(r) && r.finisher.Finishing? && r.finisher.stage == stage && r.finisher.verdict == verdict
  }

  lemma Passes(r: Request, stage: FinishStage, verdict: Verdict)
    requires At(r, stage, verdict) && !stage.Over? && (stage.AwaitPump? ==> r.pump.PumpDone?)
    ensures CanContinue(r) && At(ContinueFinish(r), Next(stage), verdict)
    ensures ContinueFinish(r).accepted == r.accepted
    ensures ContinueFinish(r).finisher == r.finisher.(stage := Next(stage))
  {
    StagedContinue(r);
    InOrderContinue(r);
  }

  /** What the pump does next on a closed chunk channel. */
  function PumpMove(r: Request): Step {
    if r.pump.PumpWaiting? then if r.chunks == [] then PumpExits else PumpTakes
    else if r.writer.WriterBroken? then PumpAborts
    else ReaderReads(if r.pump.Writing? then |r.pump.rest| else 0)
  }

  function PumpWork(r: Request): nat {
    2 * |r.chunks| + (match r.pump case PumpWaiting => 1 case Writing(_) => 2 case PumpDone => 0)
  }

  lemma PumpMoves(r: Request, verdict: Verdict)
    requires At(r, AwaitPump, verdict) && !r.pump.PumpDone?
    ensures Enabled(r, PumpMove(r))
    ensures var r' := Apply(r, PumpMove(r));
      && At(r', AwaitPump, verdict) && PumpWork(r') < PumpWork(r)
      && r'.accepted == r.accepted && r'.finisher == r.finisher
  {
    StagedStep(r, PumpMove(r));
    InOrderStep(r, PumpMove(r));
  }

  class PendingRequest {
    const chunkCapacity: nat
    var state: StreamState
    var responseStart: bool
    var completed: bool
    var cancelSent: bool
    var bytesSent: nat
    var bytesReceived: nat
    var chunks: seq<seq<byte>>
    var chunksClosed: bool
    var pump: Pump
    var writer: Writer
    var startSends: seq<StartResult>
    var doneSends: seq<Verdict>
    var released: bool
    var finishedClosed: bool
    var contextDone: bool
    var reports: seq<UsageReport>
    ghost var finisher: Finisher
    ghost var accepted: seq<byte>
    var delivered: seq<byte>

    ghost function View(): Request
      reads this
    {
      Request(state, responseStart, completed, cancelSent, bytesSent, bytesReceived, chunkCapacity, chunks,
              chunksClosed, pump, writer, startSends, doneSends, released, finishedClosed, contextDone,
              reports, finisher, accepted, delivered)
    }

    constructor (flow: FlowControl)
      ensures View() == NewRequest(flow)
    {
      chunkCapacity := flow.BufferedFrameCapacity();
      state, responseStart, completed, cancelSent := StateWaiting, false, false, false;
      bytesSent, bytesReceived, chunks, chunksClosed := 0, 0, [], false;
      pump, writer, startSends, doneSends := PumpWaiting, WriterOpen, [], [];
      released, finishedClosed, contextDone, reports := false, false, false, [];
      finisher, accepted, delivered := NoFinisher, [], [];
    }

    method HandleResponseStart(status: int) returns (err: FrameError)
      modifies this`responseStart, this`state, this`startSends
      ensures (View(), err) == HandleStart(old(View()), status)
    {
      if completed {
        return AfterCompletion;
      }
      if responseStart {
        return DuplicateStart;
      }
      responseStart, state := true, StateActive;
      startSends := startSends + [Started(status)];
      return NoError;
    }

    /** `refused` says that the select takes the context's end. */
    method WriteResponseBody(chunk: seq<byte>, refused: bool) returns (err: FrameError)
      requires if refused then contextDone && chunk != [] else HasRoom(View(), chunk)
      modifies this`bytesReceived, this`chunks, this`accepted
      ensures (View(), err) == if refused then RefuseBody(old(View()), chunk) else WriteBody(old(View()), chunk)
    {
      if completed {
        return AfterCompletion;
      }
      if !responseStart {
        return BeforeStart;
      }
      bytesReceived := bytesReceived + |chunk|;
      if |chunk| == 0 {
        return NoError;
      }
      if refused {
        return ContextEnded;
      }
      chunks, accepted := chunks + [chunk], accepted + chunk;
      return NoError;
    }

    /** The locked section of cancel. */
    method MarkCancelLocked() returns (ok: bool)
      modifies this`cancelSent, this`state
      ensures (View(), ok) == MarkCancel(old(View()))
    {
      if completed || cancelSent {
        return false;
      }
      cancelSent, state := true, StateCanceled;
      return true;
    }

    /** The locked section of finish. */
    method BeginFinishLocked(verdict: Verdict) returns (won: bool)
      modifies this`completed, this`state, this`finisher
      ensures View() == BeginFinish(old(View()), verdict) && won == !old(completed)
    {
      if completed {
        return false;
      }
      completed := true;
      state :=
        match verdict
        case Clean => StateFinished
        case Broken(err) =>
          if err.ContextCanceled? || err.IdleTimeout? || err.TimedOut? then StateCanceled else StateFailed;
      finisher := Finishing(BreakWriter, verdict, responseStart, bytesSent, bytesReceived);
      return true;
    }

    /** The pump's next move on a closed chunk channel, for a reader that reads what
        it is given. */
    method MovePump()
      requires Enabled(View(), PumpMove(View())) && !pump.PumpDone?
      modifies this`pump, this`chunks, this`delivered
      ensures View() == Apply(old(View()), PumpMove(old(View())))
    {
      match pump {
        case PumpWaiting =>
          if |chunks| == 0 {
            pump := PumpDone;
          } else {
            pump, chunks := Writing(chunks[0]), chunks[1..];
          }
        case Writing(rest) =>
          if writer.WriterBroken? {
            pump := PumpDone;
          } else {
            assert rest[..|rest|] == rest && rest[|rest|..] == [];
            delivered, pump := delivered + rest, PumpWaiting;
          }
      }
    }

    /** pumpResponseBody from wherever it stands when finish waits for it. */
    method PumpResponseBody(ghost verdict: Verdict)
      requires At(View(), AwaitPump, verdict)
      modifies this`pump, this`chunks, this`delivered
      ensures At(View(), AwaitPump, verdict) && pump.PumpDone?
    {
      while !pump.PumpDone?
        invariant At(View(), AwaitPump, verdict)
        decreases PumpWork(View())
      {
        PumpMoves(View(), verdict);
        MovePump();
      }
    }

    // The sections of finish.

    method CloseWriterWithError(verdict: Verdict)
      requires At(View(), BreakWriter, verdict)
      modifies this`writer, this`finisher
      ensures At(View(), CloseChunks, verdict) && finisher == old(finisher).(stage := CloseChunks)
    {
      Passes(View(), BreakWriter, verdict);
      if verdict.Broken? {
        writer := WriterBroken(verdict.err);
      }
      finisher := finisher.(stage := CloseChunks);
    }

    method CloseChunkStream(verdict: Verdict)
      requires At(View(), CloseChunks, verdict)
      modifies this`chunksClosed, this`finisher
      ensures At(View(), AwaitPump, verdict) && finisher == old(finisher).(stage := AwaitPump)
    {
      Passes(View(), CloseChunks, verdict);
      chunksClosed := true;
      finisher := finisher.(stage := AwaitPump);
    }

    method PumpIsDone(verdict: Verdict)
      requires At(View(), AwaitPump, verdict) && pump.PumpDone?
      modifies this`finisher
      ensures At(View(), EndWriter, verdict) && finisher == old(finisher).(stage := EndWriter)
    {
      Passes(View(), AwaitPump, verdict);
      finisher := finisher.(stage := EndWriter);
    }

    method CloseWriter(verdict: Verdict)
      requires At(View(), EndWriter, verdict)
      modifies this`writer, this`finisher
      ensures At(View(), SendStart, verdict) && finisher == old(finisher).(stage := SendStart)
    {
      Passes(View(), EndWriter, verdict);
      if verdict.Clean? {
        writer := WriterEof;
      }
      finisher := finisher.(stage := SendStart);
    }

    method SendStartResult(verdict: Verdict, started: bool)
      requires At(View(), SendStart, verdict) && finisher.started == started
      modifies this`startSends, this`finisher
      ensures At(View(), SendDone, verdict) && finisher == old(finisher).(stage := SendDone)
    {
      Passes(View(), SendStart, verdict);
      if !started {
        startSends := startSends + [NotStarted(verdict)];
      }
      finisher := finisher.(stage := SendDone);
    }

    method SendOutcome(verdict: Verdict)
      requires At(View(), SendDone, verdict)
      modifies this`doneSends, this`finisher
      ensures At(View(), FreeSlot, verdict) && finisher == old(finisher).(stage := FreeSlot)
    {
      Passes(View(), SendDone, verdict);
      doneSends := doneSends + [verdict];
      finisher := finisher.(stage := FreeSlot);
    }

    method ReleaseSlot(verdict: Verdict)
      requires At(View(), FreeSlot, verdict)
      modifies this`released, this`finisher
      ensures At(View(), CloseFinished, verdict) && finisher == old(finisher).(stage := CloseFinished)
    {
      Passes(View(), FreeSlot, verdict);
      released := true;
      finisher := finisher.(stage := CloseFinished);
    }

    method CloseFinishedChannel(verdict: Verdict)
      requires At(View(), CloseFinished, verdict)
      modifies this`finishedClosed, this`finisher
      ensures At(View(), CancelContext, verdict) && finisher == old(finisher).(stage := CancelContext)
    {
      Passes(View(), CloseFinished, verdict);
      finishedClosed := true;
      finisher := finisher.(stage := CancelContext);
    }

    method CancelStreamContext(verdict: Verdict)
      requires At(View(), CancelContext, verdict)
      modifies this`contextDone, this`finisher
      ensures At(View(), ReportUsage, verdict) && finisher == old(finisher).(stage := ReportUsage)
    {
      Passes(View(), CancelContext, verdict);
      contextDone := true;
      finisher := finisher.(stage := ReportUsage);
    }

    method CompleteUsage(verdict: Verdict, sent: nat, received: nat)
      requires At(View(), ReportUsage, verdict) && finisher.sent == sent && finisher.received == received
      modifies this`reports, this`finisher
      ensures At(View(), Over, verdict) && finisher == old(finisher).(stage := Over)
    {
      Passes(View(), ReportUsage, verdict);
      reports := reports + [UsageReport(sent, received)];
      finisher := finisher.(stage := Over);
    }

    /** finish after its locked section. */
    method FinishUnlocked(verdict: Verdict, started: bool, sent: nat, received: nat)
      requires At(View(), BreakWriter, verdict)
      requires finisher == Finishing(BreakWriter, verdict, started, sent, received)
      modifies this`writer, this`chunksClosed, this`pump, this`chunks, this`delivered, this`startSends,
               this`doneSends, this`released, this`finishedClosed, this`contextDone, this`reports, this`finisher
      ensures At(View(), Over, verdict) && finisher == Finishing(Over, verdict, started, sent, received)
    {
      CloseWriterWithError(verdict);
      CloseChunkStream(verdict);
      PumpResponseBody(verdict);
      PumpIsDone(verdict);
      CloseWriter(verdict);
      SendStartResult(verdict, started);
      SendOutcome(verdict);
      ReleaseSlot(verdict);
      CloseFinishedChannel(verdict);
      CancelStreamContext(verdict);
      CompleteUsage(verdict, sent, received);
    }

    /** finish, with only the pump and a reading body reader beside it: the first
        call settles everything once, later calls do nothing. */
    method Finish(verdict: Verdict)
      requires Sound(View())
      modifies this
      ensures old(completed) ==> View() == old(View())
      ensures !old(completed) ==>
        && At(View(), Over, verdict) && completed && state == TerminalState(verdict)
        && doneSends == [verdict] && |startSends| == 1 && released && finishedClosed
        && reports == [UsageReport(old(bytesSent), old(bytesReceived))]
        && (if verdict.Broken? then writer == WriterBroken(verdict.err)
            else writer == WriterEof && delivered == accepted)
        && accepted == old(accepted)
    {
      var started, sent, received := responseStart, bytesSent, bytesReceived;
      BeginsSound(View(), verdict);
      var won := BeginFinishLocked(verdict);
      if won {
        FinishUnlocked(verdict, started, sent, received);
        AtTheEnd(View(), verdict);
      }
    }
  }

  lemma BeginsSound(r: Request, verdict: Verdict)
    requires Sound(r)
    ensures !r.completed ==> At(BeginFinish(r, verdict), BreakWriter, verdict)
  {
    StagedStep(r, FinishCalled(verdict));
    InOrderStep(r, FinishCalled(verdict));
  }

  /** What it means to have come to the end of finish. */
  lemma AtTheEnd(r: Request, verdict: Verdict)
    requires At(r, Over, verdict)
    ensures r.completed && r.state == TerminalState(verdict)
    ensures r.doneSends == [verdict] && |r.startSends| == 1 && r.released && r.finishedClosed
    ensures r.reports == [UsageReport(r.finisher.sent, r.finisher.received)]
    ensures if verdict.Broken? then r.writer == WriterBroken(verdict.err)
            else r.writer == WriterEof && r.delivered == r.accepted
  {
  }
}
