/** What the dispatcher guarantees to a stream whose callers keep the rule that
    no enqueue overlaps or follows a final one, whatever the callers of other
    streams do (pkg/api/dispatcher.go). */
module DispatcherDiscipline {
  import opened Protocol
  import opened Dispatcher
  import opened DispatcherRuns
  import opened DispatcherSafety

  ghost predicate Idle(producers: map<nat, Producer>, x: string) {
    forall p <- producers :: producers[p].id != x
  }

  /** The rule on stream x, checked when an enqueue begins. */
  ghost predicate Disciplined(w: World, step: Step, x: string) {
    step.BeginEnqueue? && step.id == x ==>
      x !in w.hist.finals && (step.final ==> Idle(w.producers, x))
  }

  ghost predicate DisciplinedRun(w: World, steps: seq<Step>, x: string)
    requires Feasible(w, steps)
    decreases |steps|
  {
    steps == [] ||
    (Disciplined(w, steps[0], x) && DisciplinedRun(Apply(w, steps[0]), steps[1..], x))
  }

  predicate OneRef(owner: seq<string>, x: string) {
    forall r, q :: 0 <= r < |owner| && 0 <= q < |owner| && owner[r] == x && owner[q] == x ==> r == q
  }

  predicate AtMostOnce(ready: seq<string>, x: string) {
    forall i, j :: 0 <= i < |ready| && 0 <= j < |ready| && ready[i] == x && ready[j] == x ==> i == j
  }

  /** Stream x's object, if any, is the map's until its final message has gone. */
  ghost predicate RefKeptAt(w: World, x: string, r: nat) {
    Owned(w.hist.owner, x, r) && r < |w.core.heap| ==>
      && (!Live(w.core, x, r) ==> x in w.hist.finals && Idle(w.producers, x) && w.core.heap[r].queue == [])
      && (w.core.heap[r].draining ==> x in w.hist.finals && Idle(w.producers, x))
  }

  ghost predicate RefKept(w: World, x: string) {
    forall r: nat :: RefKeptAt(w, x, r)
  }

  ghost predicate FinalAlone(w: World, x: string) {
    forall p, q :: p in w.producers && w.producers[p].id == x && w.producers[p].final
                   && q in w.producers && w.producers[q].id == x ==>
                     x in w.hist.finals && p == q
  }

  /** Stream x is in the ready list at most once, and while its object is in the
      map exactly when it is marked scheduled. */
  ghost predicate ReadyExact(w: World, x: string) {
    && AtMostOnce(w.core.ready, x)
    && (x in w.core.ready ==> x in w.hist.owner)
    && (x in w.core.streams && w.core.streams[x] < |w.core.heap| ==>
          (x in w.core.ready <==> w.core.heap[w.core.streams[x]].scheduled))
  }

  ghost predicate Orderly(w: World, x: string) {
    OneRef(w.hist.owner, x) && RefKept(w, x) && FinalAlone(w, x) && ReadyExact(w, x)
  }

  lemma RefKeptBegin(w: World, p: nat, id: string, msg: Message, final: bool, x: string, r: nat)
    requires Shape(w) && RefKeptAt(w, x, r) && p !in w.producers
    requires Disciplined(w, BeginEnqueue(p, id, msg, final), x)
    ensures RefKeptAt(Begin(w, p, id, msg, final), x, r)
  {
  }

  lemma ReadyBegin(w: World, p: nat, id: string, msg: Message, final: bool, x: string)
    requires Shape(w) && Orderly(w, x) && p !in w.producers
    requires Disciplined(w, BeginEnqueue(p, id, msg, final), x)
    ensures var w' := Begin(w, p, id, msg, final); OneRef(w'.hist.owner, x) && ReadyExact(w', x)
  {
    if id == x && x in w.hist.owner {
      var r :| 0 <= r < |w.hist.owner| && w.hist.owner[r] == x;
      assert RefKeptAt(w, x, r);
    }
  }

  lemma OrderlyBegin(w: World, p: nat, id: string, msg: Message, final: bool, x: string)
    requires Shape(w) && Orderly(w, x) && p !in w.producers
    requires Disciplined(w, BeginEnqueue(p, id, msg, final), x)
    ensures Orderly(Begin(w, p, id, msg, final), x)
  {
    forall r: nat ensures RefKeptAt(Begin(w, p, id, msg, final), x, r) {
      RefKeptBegin(w, p, id, msg, final, x, r);
    }
    ReadyBegin(w, p, id, msg, final, x);
  }

  lemma AppendOnce(ready: seq<string>, x: string, id: string)
    requires AtMostOnce(ready, x) && (id == x ==> x !in ready)
    ensures AtMostOnce(ready + [id], x)
    ensures x in ready + [id] <==> x in ready || id == x
  {
  }

  lemma PopOnce(ready: seq<string>, x: string)
    requires AtMostOnce(ready, x) && ready != []
    ensures AtMostOnce(ready[1..], x)
    ensures x in ready[1..] <==> x in ready && ready[0] != x
  {
    assert ready == [ready[0]] + ready[1..];
    forall i, j | 0 <= i < |ready| - 1 && 0 <= j < |ready| - 1 && ready[1..][i] == x && ready[1..][j] == x
      ensures i == j
    {
      assert ready[i + 1] == x && ready[j + 1] == x;
    }
  }

  lemma RefKeptPop(w: World, x: string, r: nat)
    requires Shape(w) && RefKeptAt(w, x, r) && Enabled(w, Pop)
    ensures RefKeptAt(DoPop(w), x, r)
  {
  }

  lemma RefKeptReceive(w: World, x: string, r: nat)
    requires Shape(w) && RefKeptAt(w, x, r) && Enabled(w, Receive)
    ensures RefKeptAt(Apply(w, Receive), x, r)
  {
  }

  lemma RefKeptAfter(w: World, step: Step, x: string, r: nat)
    requires Shape(w) && RefKeptAt(w, x, r) && Enabled(w, step) && (step.AfterTaken? || step.AfterEmpty?)
    ensures RefKeptAt(Apply(w, step), x, r)
  {
  }

  lemma RefKeptRunner(w: World, step: Step, x: string)
    requires Shape(w) && RefKept(w, x) && Enabled(w, step)
    requires step.Pop? || step.Receive? || step.AfterTaken? || step.AfterEmpty?
    ensures RefKept(Apply(w, step), x)
  {
    forall r: nat ensures RefKeptAt(Apply(w, step), x, r) {
      match step {
        case Pop => RefKeptPop(w, x, r);
        case Receive => RefKeptReceive(w, x, r);
        case _ => RefKeptAfter(w, step, x, r);
      }
    }
  }

  lemma ReadyPop(w: World, x: string)
    requires Shape(w) && Orderly(w, x) && Enabled(w, Pop)
    ensures ReadyExact(DoPop(w), x)
  {
    if |w.core.control| == 0 && |w.core.ready| > 0 {
      PopOnce(w.core.ready, x);
    }
  }

  lemma ReadyAfter(w: World, step: Step, x: string)
    requires Shape(w) && Orderly(w, x) && Enabled(w, step) && (step.AfterTaken? || step.AfterEmpty?)
    ensures ReadyExact(Apply(w, step), x)
  {
    var id, r := w.runner.id, w.runner.ref;
    if !w.core.heap[r].scheduled {
      AppendOnce(w.core.ready, x, id);
    }
  }

  lemma ReadyFinish(w: World, p: nat, x: string)
    requires Shape(w) && Orderly(w, x) && Enabled(w, FinishEnqueue(p))
    ensures ReadyExact(Apply(w, FinishEnqueue(p)), x)
  {
    var e := w.producers[p];
    assert RefKeptAt(w, x, e.ref);
    if !w.core.heap[e.ref].scheduled {
      AppendOnce(w.core.ready, x, e.id);
    }
  }

  lemma RefKeptFinish(w: World, p: nat, x: string, r: nat)
    requires Shape(w) && RefKeptAt(w, x, r) && FinalAlone(w, x) && Enabled(w, FinishEnqueue(p))
    ensures RefKeptAt(Apply(w, FinishEnqueue(p)), x, r)
  {
  }

  lemma RefKeptEnqueuing(w: World, step: Step, x: string, r: nat)
    requires Shape(w) && RefKeptAt(w, x, r) && Enabled(w, step) && (step.PushToQueue? || step.AbandonEnqueue?)
    ensures RefKeptAt(Apply(w, step), x, r)
  {
  }

  lemma OrderlyProducer(w: World, step: Step, x: string)
    requires Shape(w) && Orderly(w, x) && Enabled(w, step) && (step.PushToQueue? || step.AbandonEnqueue?)
    ensures Orderly(Apply(w, step), x)
  {
    forall r: nat ensures RefKeptAt(Apply(w, step), x, r) {
      RefKeptEnqueuing(w, step, x, r);
    }
  }

  lemma ReadyRunner(w: World, step: Step, x: string)
    requires Shape(w) && Orderly(w, x) && Enabled(w, step)
    requires step.Pop? || step.Receive? || step.AfterTaken? || step.AfterEmpty?
    ensures ReadyExact(Apply(w, step), x)
  {
    match step {
      case Pop => ReadyPop(w, x);
      case Receive => ReadyReceive(w, x);
      case _ => ReadyAfter(w, step, x);
    }
  }

  lemma ReadyReceive(w: World, x: string)
    requires ReadyExact(w, x) && Enabled(w, Receive)
    ensures ReadyExact(Apply(w, Receive), x)
  {
  }

  lemma RunnerLeavesCallers(w: World, step: Step)
    requires Enabled(w, step)
    requires step.Pop? || step.Receive? || step.AfterTaken? || step.AfterEmpty?
    ensures Apply(w, step).producers == w.producers && Apply(w, step).hist.owner == w.hist.owner
    ensures Apply(w, step).hist.finals == w.hist.finals
  {
  }

  lemma OrderlyRunner(w: World, step: Step, x: string)
    requires Shape(w) && Orderly(w, x) && Enabled(w, step)
    requires step.Pop? || step.Receive? || step.AfterTaken? || step.AfterEmpty?
    ensures Orderly(Apply(w, step), x)
  {
    RefKeptRunner(w, step, x);
    ReadyRunner(w, step, x);
    RunnerLeavesCallers(w, step);
  }

  lemma OrderlyFinish(w: World, p: nat, x: string)
    requires Shape(w) && Orderly(w, x) && Enabled(w, FinishEnqueue(p))
    ensures Orderly(Apply(w, FinishEnqueue(p)), x)
  {
    forall r: nat ensures RefKeptAt(Apply(w, FinishEnqueue(p)), x, r) {
      RefKeptFinish(w, p, x, r);
    }
    ReadyFinish(w, p, x);
  }

  lemma OrderlyStep(w: World, step: Step, x: string)
    requires Shape(w) && Orderly(w, x) && Enabled(w, step) && Disciplined(w, step, x)
    ensures Orderly(Apply(w, step), x)
  {
    match step {
      case BeginEnqueue(p, id, msg, final) => OrderlyBegin(w, p, id, msg, final, x);
      case PushToQueue(p) => OrderlyProducer(w, step, x);
      case AbandonEnqueue(p) => OrderlyProducer(w, step, x);
      case FinishEnqueue(p) => OrderlyFinish(w, p, x);
      case Pop => OrderlyRunner(w, step, x);
      case Receive => OrderlyRunner(w, step, x);
      case AfterTaken => OrderlyRunner(w, step, x);
      case AfterEmpty => OrderlyRunner(w, step, x);
      case _ => OrderlyQuiet(w, step, x);
    }
  }

  lemma OrderlyQuiet(w: World, step: Step, x: string)
    requires Orderly(w, x) && Enabled(w, step)
    requires !step.BeginEnqueue? && !step.PushToQueue? && !step.AbandonEnqueue? && !step.FinishEnqueue?
    requires !step.Pop? && !step.Receive? && !step.AfterTaken? && !step.AfterEmpty?
    ensures Orderly(Apply(w, step), x)
  {
    forall r: nat ensures RefKeptAt(Apply(w, step), x, r) {
      assert RefKeptAt(w, x, r);
    }
  }

  // The streams' logs by id.

  function OfId(log: seq<Envelope>, x: string): seq<Message> {
    if log == [] then [] else
    var last := log[|log| - 1];
    OfId(log[..|log| - 1], x) + (if last.StreamEnvelope? && last.id == x then [last.msg] else [])
  }

  lemma OfIdAppend(log: seq<Envelope>, out: Envelope, x: string)
    ensures OfId(log + [out], x) ==
            if out.StreamEnvelope? && out.id == x then OfId(log, x) + [out.msg] else OfId(log, x)
  {
    assert (log + [out])[..|log|] == log;
  }

  lemma {:induction false} IdIsRef(owner: seq<string>, log: seq<Envelope>, x: string, r: nat)
    requires OwnedLog(owner, log) && OneRef(owner, x) && Owned(owner, x, r)
    ensures OfId(log, x) == OfRef(log, r)
  {
    if log != [] {
      IdIsRef(owner, log[..|log| - 1], x, r);
    }
  }

  lemma {:induction false} UnownedId(owner: seq<string>, log: seq<Envelope>, x: string)
    requires OwnedLog(owner, log) && x !in owner
    ensures OfId(log, x) == []
  {
    if log != [] {
      UnownedId(owner, log[..|log| - 1], x);
    }
  }

  /** What stream x still has in its queue. */
  function Queued(c: Core, x: string): seq<Message> {
    if x in c.streams && c.streams[x] < |c.heap| then c.heap[c.streams[x]].queue else []
  }

  /** Exactly once and in order: what has left for stream x, followed by what is
      queued in the map's object, is everything ever pushed to x; nothing went
      to an object the runner will never look at. */
  ghost predicate ExactlyOnce(w: World, x: string) {
    OfId(Outbound(w), x) + Queued(w.core, x) == OfId(w.hist.pushes, x) && OfId(w.hist.lost, x) == []
  }

  lemma OrderlyExactlyOnce(w: World, x: string)
    requires Inv(w) && Orderly(w, x)
    ensures ExactlyOnce(w, x)
  {
    if x in w.hist.owner {
      var r :| 0 <= r < |w.hist.owner| && w.hist.owner[r] == x;
      assert RefConserved(w, r) && RefKeptAt(w, x, r);
      IdIsRef(w.hist.owner, Outbound(w), x, r);
      IdIsRef(w.hist.owner, w.hist.pushes, x, r);
      IdIsRef(w.hist.owner, w.hist.lost, x, r);
    } else {
      UnownedId(w.hist.owner, Outbound(w), x);
      UnownedId(w.hist.owner, w.hist.pushes, x);
      UnownedId(w.hist.owner, w.hist.lost, x);
    }
  }

  lemma {:induction false} OrderlyRun(w: World, steps: seq<Step>, x: string)
    requires Inv(w) && Orderly(w, x) && Feasible(w, steps) && DisciplinedRun(w, steps, x)
    ensures Inv(Run(w, steps)) && Orderly(Run(w, steps), x)
    decreases |steps|
  {
    if steps != [] {
      InvStep(w, steps[0]);
      OrderlyStep(w, steps[0], x);
      OrderlyRun(Apply(w, steps[0]), steps[1..], x);
    }
  }

  /** Exactly-once, in-order delivery on x over every run in which x's own
      callers keep the rule, however other streams behave; the ready list holds
      x at most once, and exactly while x is marked scheduled. */
  lemma DisciplinedDelivery(streamQueueCapacity: int, steps: seq<Step>, x: string)
    requires Feasible(Init(streamQueueCapacity), steps)
    requires DisciplinedRun(Init(streamQueueCapacity), steps, x)
    ensures var w := Run(Init(streamQueueCapacity), steps);
      ExactlyOnce(w, x) && ReadyExact(w, x)
  {
    var w := Init(streamQueueCapacity);
    InvInit(streamQueueCapacity);
    OrderlyRun(w, steps, x);
    OrderlyExactlyOnce(Run(w, steps), x);
  }
}
