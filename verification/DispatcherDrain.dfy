/** With no caller in the way the runner sends everything and cleans up
    (pkg/api/dispatcher.go). */
module DispatcherDrain {
  import opened Protocol
  import opened Dispatcher
  import opened DispatcherRuns
  import opened DispatcherSafety
  import opened DispatcherDiscipline

  /** Open, and no enqueue in progress. */
  predicate Quiet(w: World) {
    !w.core.closed && w.producers == map[] && !w.runner.Returned? && !w.runner.SendFailed?
  }

  predicate Resting(w: World) {
    w.runner.Asleep? && !w.core.wake
  }

  /** The one thing the runner does next when sends succeed. */
  function Move(w: World): Step
    requires Quiet(w) && !Resting(w)
  {
    match w.runner
    case AtTop => Pop
    case Receiving(_, _) => Receive
    case Took(_, _, _) => AfterTaken
    case FoundEmpty(_, _) => AfterEmpty
    case Sending(_) => SendOk
    case Asleep => Wake
  }

  function TotalQueued(heap: seq<Stream>): nat {
    if heap == [] then 0 else TotalQueued(heap[..|heap| - 1]) + |heap[|heap| - 1].queue|
  }

  lemma {:induction false} TotalQueuedUpdate(heap: seq<Stream>, r: nat, stream: Stream)
    requires r < |heap|
    ensures TotalQueued(heap[r := stream]) == TotalQueued(heap) - |heap[r].queue| + |stream.queue|
  {
    var n := |heap| - 1;
    if r == n {
      assert heap[r := stream][..n] == heap[..n];
    } else {
      assert heap[r := stream][..n] == heap[..n][r := stream];
      TotalQueuedUpdate(heap[..n], r, stream);
    }
  }

  function Work(c: Core): nat {
    2 * TotalQueued(c.heap) + |c.ready| + |c.control|
  }

  function Stage(runner: Runner): nat {
    match runner
    case Asleep => 0
    case AtTop => 1
    case Sending(_) => 2
    case FoundEmpty(_, _) => 2
    case Receiving(_, _) => 3
    case Took(_, _, _) => 8
    case Returned => 0
    case SendFailed(_) => 0
  }

  function Rank(w: World): nat {
    3 * Work(w.core) + Stage(w.runner) + (if w.core.wake then 2 else 0)
  }

  lemma PopUsesWork(c: Core)
    requires forall id <- c.streams :: c.streams[id] < |c.heap|
    ensures var (c', popped) := PopNext(c);
      if popped.PoppedNothing? then c' == c && c.control == [] && c.ready == []
      else Work(c') == Work(c) - 1
  {
    if |c.control| == 0 && |c.ready| > 0 && c.ready[0] in c.streams {
      var r := c.streams[c.ready[0]];
      TotalQueuedUpdate(c.heap, r, c.heap[r].(scheduled := false));
    }
  }

  lemma TakeUsesWork(c: Core, id: string, r: nat)
    requires (forall id <- c.streams :: c.streams[id] < |c.heap|) && Live(c, id, r) && c.heap[r].queue != []
    ensures Work(AfterStreamMessage(TakeMessage(c, r), id)) < Work(c)
  {
    TotalQueuedUpdate(c.heap, r, c.heap[r].(queue := c.heap[r].queue[1..]));
    var c' := TakeMessage(c, r);
    TotalQueuedUpdate(c'.heap, r, c'.heap[r].(scheduled := true));
  }

  /** One call of next on its own: a delivered message uses up work, and it
      reports nothing to do only when both lanes are empty. */
  lemma {:induction false} NextUsesUpWork(c: Core)
    requires forall id <- c.streams :: c.streams[id] < |c.heap|
    ensures var (c', outcome) := NextAlone(c);
      if outcome.Delivers? then Work(c') < Work(c)
      else c'.control == [] && c'.ready == [] && Work(c') <= Work(c)
    decreases |c.ready|
  {
    PopUsesWork(c);
    var (c', popped) := PopNext(c);
    if popped.PoppedStale? {
      NextUsesUpWork(c');
    } else if popped.PoppedStream? {
      if c'.heap[popped.ref].queue == [] {
        NextUsesUpWork(AfterEmptyStream(c', popped.id));
      } else {
        TakeUsesWork(c', popped.id, popped.ref);
      }
    }
  }

  lemma PopDescends(w: World)
    requires Inv(w) && Quiet(w) && w.runner.AtTop?
    ensures Quiet(DoPop(w)) && Rank(DoPop(w)) < Rank(w)
  {
    var c := w.core;
    if |c.control| == 0 && |c.ready| > 0 && c.ready[0] in c.streams {
      var r := c.streams[c.ready[0]];
      TotalQueuedUpdate(c.heap, r, c.heap[r].(scheduled := false));
    }
  }

  lemma ReceiveDescends(w: World)
    requires Inv(w) && Quiet(w) && w.runner.Receiving?
    ensures var w' := Apply(w, Receive); Quiet(w') && Rank(w') < Rank(w)
  {
    var r := w.runner.ref;
    var stream := w.core.heap[r];
    if stream.queue != [] {
      TotalQueuedUpdate(w.core.heap, r, stream.(queue := stream.queue[1..]));
    }
  }

  lemma AfterDescends(w: World)
    requires Inv(w) && Quiet(w) && w.runner.Took?
    ensures var w' := Apply(w, AfterTaken); Quiet(w') && Rank(w') < Rank(w)
  {
    var r := w.runner.ref;
    TotalQueuedUpdate(w.core.heap, r, w.core.heap[r].(scheduled := true));
  }

  /** Every move of the runner uses up work. */
  lemma MoveDescends(w: World)
    requires Inv(w) && Quiet(w) && !Resting(w)
    ensures Enabled(w, Move(w))
    ensures var w' := Apply(w, Move(w)); Quiet(w') && Rank(w') < Rank(w)
  {
    match w.runner {
      case AtTop => PopDescends(w);
      case Receiving(id, r) => ReceiveDescends(w);
      case Took(id, r, msg) => AfterDescends(w);
      case _ =>
    }
  }

  lemma MoveKeepsLogs(w: World)
    requires Inv(w) && Quiet(w) && !Resting(w) && Enabled(w, Move(w))
    ensures var w' := Apply(w, Move(w));
      w'.hist.pushes == w.hist.pushes && w'.hist.controls == w.hist.controls
  {
  }

  /** Where the runner comes to rest. */
  ghost function Drain(w: World): World
    requires Inv(w) && Quiet(w)
    decreases Rank(w)
  {
    if Resting(w) then w
    else
      MoveDescends(w);
      InvStep(w, Move(w));
      Drain(Apply(w, Move(w)))
  }

  lemma {:induction false} DrainRests(w: World)
    requires Inv(w) && Quiet(w)
    ensures var d := Drain(w);
      Inv(d) && Quiet(d) && Resting(d) && d.hist.pushes == w.hist.pushes && d.hist.controls == w.hist.controls
    decreases Rank(w)
  {
    if !Resting(w) {
      MoveDescends(w);
      MoveKeepsLogs(w);
      InvStep(w, Move(w));
      DrainRests(Apply(w, Move(w)));
    }
  }

  ghost predicate NoneDraining(c: Core) {
    forall id <- c.streams :: c.streams[id] < |c.heap| && !c.heap[c.streams[id]].draining
  }

  /** At rest nothing is left in any queue the map knows, no stream that was
      marked draining is still in the map, and every message accepted, save
      those pushed to an object already deleted, is on the wire in order. */
  lemma RestIsClean(w: World)
    requires Inv(w) && Quiet(w) && Resting(w)
    ensures w.core.control == [] && w.core.ready == []
    ensures (forall id :: Queued(w.core, id) == []) && NoneDraining(w.core)
    ensures OfControl(w.hist.wire) == w.hist.controls
    ensures forall r: nat | r < |w.core.heap| ::
              OfRef(w.hist.wire, r) + OfRef(w.hist.lost, r) == OfRef(w.hist.pushes, r)
  {
    assert Outbound(w) == w.hist.wire;
    forall id ensures Queued(w.core, id) == [] {
      assert StreamAttended(w, id);
    }
    forall id | id in w.core.streams ensures !w.core.heap[w.core.streams[id]].draining {
      assert StreamAttended(w, id);
    }
    forall r: nat | r < |w.core.heap|
      ensures OfRef(w.hist.wire, r) + OfRef(w.hist.lost, r) == OfRef(w.hist.pushes, r)
    {
      assert RefConserved(w, r);
      assert Queued(w.core, w.hist.owner[r]) == [];
      assert OfRef(w.hist.wire, r) + w.core.heap[r].queue == OfRef(w.hist.pushes, r);
    }
  }

  /** From any reachable open state, once callers stop, the runner rests after
      finitely many moves with every control message sent, and every stream that
      kept the final-message rule delivered whole, each message once, in order. */
  lemma DrainDelivers(w: World, x: string)
    requires Inv(w) && Quiet(w)
    ensures OfControl(Drain(w).hist.wire) == w.hist.controls
    ensures NoneDraining(Drain(w).core)
    ensures Orderly(w, x) ==> OfId(Drain(w).hist.wire, x) == OfId(w.hist.pushes, x)
  {
    DrainRests(w);
    var d := Drain(w);
    RestIsClean(d);
    if Orderly(w, x) {
      DrainOrderly(w, x);
      OrderlyExactlyOnce(d, x);
      assert Outbound(d) == d.hist.wire;
      assert Queued(d.core, x) == [];
    }
  }

  lemma {:induction false} DrainOrderly(w: World, x: string)
    requires Inv(w) && Quiet(w) && Orderly(w, x)
    ensures Orderly(Drain(w), x)
    decreases Rank(w)
  {
    if !Resting(w) {
      MoveDescends(w);
      InvStep(w, Move(w));
      OrderlyStep(w, Move(w), x);
      DrainOrderly(Apply(w, Move(w)), x);
    }
  }

  // A final message lets its stream go.

  predicate Draining(c: Core, r: nat) {
    r < |c.heap| && c.heap[r].draining
  }

  lemma DrainingStays(w: World, step: Step, r: nat)
    requires Enabled(w, step) && Draining(w.core, r)
    ensures Draining(Apply(w, step).core, r)
  {
  }

  lemma {:induction false} DrainingForGood(w: World, steps: seq<Step>, r: nat)
    requires Feasible(w, steps) && Draining(w.core, r)
    ensures Draining(Run(w, steps).core, r)
    decreases |steps|
  {
    if steps != [] {
      DrainingStays(w, steps[0], r);
      DrainingForGood(Apply(w, steps[0]), steps[1..], r);
    }
  }

  /** Once a final enqueue has returned with success, its stream object is out of the
      map whenever the runner rests with nobody enqueueing, whatever came between. */
  lemma FinalLeavesNothing(w: World, p: nat, steps: seq<Step>)
    requires Inv(w) && Enabled(w, FinishEnqueue(p)) && w.producers[p].final && !w.core.closed
    requires Feasible(Apply(w, FinishEnqueue(p)), steps)
    requires var d := Run(Apply(w, FinishEnqueue(p)), steps); Quiet(d) && Resting(d)
    ensures !Live(Run(Apply(w, FinishEnqueue(p)), steps).core, w.producers[p].id, w.producers[p].ref)
  {
    var w' := Apply(w, FinishEnqueue(p));
    InvStep(w, FinishEnqueue(p));
    InvRun(w', steps);
    DrainingForGood(w', steps, w.producers[p].ref);
    RestIsClean(Run(w', steps));
  }

  /** The object is marked, or out of the map, only when a final enqueue began for
      its stream. */
  predicate Accounted(c: Core, owner: seq<string>, finals: set<string>, r: nat) {
    r < |c.heap| && r < |owner| && (c.heap[r].draining || !Live(c, owner[r], r)) ==> owner[r] in finals
  }

  ghost predicate OnlyFinalsLeave(w: World) {
    && (forall p <- w.producers :: w.producers[p].final ==> w.producers[p].id in w.hist.finals)
    && (forall r: nat :: Accounted(w.core, w.hist.owner, w.hist.finals, r))
  }

  lemma AccountedBegin(w: World, p: nat, id: string, msg: Message, final: bool, r: nat)
    requires Shape(w) && p !in w.producers && Accounted(w.core, w.hist.owner, w.hist.finals, r)
    ensures var w' := Begin(w, p, id, msg, final); Accounted(w'.core, w'.hist.owner, w'.hist.finals, r)
  {
  }

  lemma AccountedFinish(w: World, p: nat, r: nat)
    requires Shape(w) && Enabled(w, FinishEnqueue(p)) && Accounted(w.core, w.hist.owner, w.hist.finals, r)
    requires w.producers[p].final ==> w.producers[p].id in w.hist.finals
    ensures Accounted(Apply(w, FinishEnqueue(p)).core, w.hist.owner, w.hist.finals, r)
  {
  }

  lemma AccountedAfter(w: World, r: nat)
    requires Shape(w) && (w.runner.Took? || w.runner.FoundEmpty?)
    requires forall k: nat :: Accounted(w.core, w.hist.owner, w.hist.finals, k)
    ensures Accounted(AfterStreamMessage(w.core, w.runner.id), w.hist.owner, w.hist.finals, r)
    ensures Accounted(AfterEmptyStream(w.core, w.runner.id), w.hist.owner, w.hist.finals, r)
  {
    assert Accounted(w.core, w.hist.owner, w.hist.finals, w.runner.ref);
    assert Accounted(w.core, w.hist.owner, w.hist.finals, r);
  }

  lemma AccountedStep(w: World, step: Step, r: nat)
    requires Shape(w) && Enabled(w, step) && OnlyFinalsLeave(w)
    ensures Accounted(Apply(w, step).core, Apply(w, step).hist.owner, Apply(w, step).hist.finals, r)
  {
    assert Accounted(w.core, w.hist.owner, w.hist.finals, r);
    match step {
      case BeginEnqueue(p, id, msg, final) => AccountedBegin(w, p, id, msg, final, r);
      case FinishEnqueue(p) => AccountedFinish(w, p, r);
      case AfterTaken => AccountedAfter(w, r);
      case AfterEmpty => AccountedAfter(w, r);
      case _ =>
    }
  }

  lemma ProducersStep(w: World, step: Step)
    requires Enabled(w, step) && OnlyFinalsLeave(w)
    ensures var w' := Apply(w, step);
      forall p <- w'.producers :: w'.producers[p].final ==> w'.producers[p].id in w'.hist.finals
  {
  }

  lemma {:induction false} OnlyFinalsLeaveRun(w: World, steps: seq<Step>)
    requires Inv(w) && Feasible(w, steps) && OnlyFinalsLeave(w)
    ensures OnlyFinalsLeave(Run(w, steps))
    decreases |steps|
  {
    if steps != [] {
      var w' := Apply(w, steps[0]);
      ProducersStep(w, steps[0]);
      forall r: nat ensures Accounted(w'.core, w'.hist.owner, w'.hist.finals, r) {
        AccountedStep(w, steps[0], r);
      }
      InvStep(w, steps[0]);
      OnlyFinalsLeaveRun(w', steps[1..]);
    }
  }

  /** And over every run, a stream object is out of the map only if a final enqueue
      began for its stream. */
  lemma OnlyFinalsLeaveMap(streamQueueCapacity: int, steps: seq<Step>, r: nat)
    requires Feasible(Init(streamQueueCapacity), steps)
    ensures var w := Run(Init(streamQueueCapacity), steps);
      r < |w.hist.owner| && !Live(w.core, w.hist.owner[r], r) ==> w.hist.owner[r] in w.hist.finals
  {
    InvInit(streamQueueCapacity);
    InvRun(Init(streamQueueCapacity), steps);
    OnlyFinalsLeaveRun(Init(streamQueueCapacity), steps);
    assert Accounted(Run(Init(streamQueueCapacity), steps).core, Run(Init(streamQueueCapacity), steps).hist.owner,
                     Run(Init(streamQueueCapacity), steps).hist.finals, r);
  }

  // After Close.

  function Pushes(steps: seq<Step>): nat {
    if steps == [] then 0 else (if steps[0].PushToQueue? then 1 else 0) + Pushes(steps[1..])
  }

  function Load(w: World): nat {
    Work(w.core) + if w.runner.Took? then 1 else 0
  }

  lemma ClosedPop(c: Core)
    requires forall id <- c.streams :: c.streams[id] < |c.heap|
    ensures Work(PopNext(c).0) <= Work(c)
  {
    PopUsesWork(c);
  }

  lemma ClosedReceive(w: World)
    requires Enabled(w, Receive)
    ensures Load(Apply(w, Receive)) <= Load(w)
  {
    var r := w.runner.ref;
    if w.core.heap[r].queue != [] {
      TotalQueuedUpdate(w.core.heap, r, w.core.heap[r].(queue := w.core.heap[r].queue[1..]));
    }
  }

  lemma ClosedAfter(c: Core, id: string)
    requires forall x <- c.streams :: c.streams[x] < |c.heap|
    ensures Work(AfterStreamMessage(c, id)) <= Work(c) + 1 && Work(AfterEmptyStream(c, id)) == Work(c)
  {
    if id in c.streams {
      var r := c.streams[id];
      TotalQueuedUpdate(c.heap, r, c.heap[r].(scheduled := true));
    }
  }

  lemma ClosedPush(w: World, p: nat)
    requires Enabled(w, PushToQueue(p))
    ensures Load(Apply(w, PushToQueue(p))) == Load(w) + 2
  {
    var r, msg := w.producers[p].ref, w.producers[p].msg;
    TotalQueuedUpdate(w.core.heap, r, w.core.heap[r].(queue := w.core.heap[r].queue + [msg]));
  }

  lemma ClosedStep(w: World, step: Step)
    requires w.core.closed && Enabled(w, step)
    ensures var w' := Apply(w, step);
      && w'.core.closed && w'.hist.controls == w.hist.controls && |w'.core.heap| == |w.core.heap|
      && Load(w') <= Load(w) + 2 * Pushes([step])
  {
    assert Pushes([step]) == if step.PushToQueue? then 1 else 0;
    match step {
      case PushToQueue(p) => ClosedPush(w, p);
      case Pop => ClosedPop(w.core);
      case Receive => ClosedReceive(w);
      case AfterTaken => ClosedAfter(w.core, w.runner.id);
      case AfterEmpty => ClosedAfter(w.core, w.runner.id);
      case _ =>
    }
  }

  /** A closed dispatcher takes in nothing more: no control message, no stream, and no
      work beyond what the pushes already under way bring; what waits only dwindles. */
  lemma {:induction false} ClosedWindsDown(w: World, steps: seq<Step>)
    requires w.core.closed && Feasible(w, steps)
    ensures var w' := Run(w, steps);
      && w'.core.closed && w'.hist.controls == w.hist.controls && |w'.core.heap| == |w.core.heap|
      && Load(w') <= Load(w) + 2 * Pushes(steps)
    decreases |steps|
  {
    if steps != [] {
      ClosedStep(w, steps[0]);
      ClosedWindsDown(Apply(w, steps[0]), steps[1..]);
      assert Pushes([steps[0]]) + Pushes(steps[1..]) == Pushes(steps);
    }
  }
}
