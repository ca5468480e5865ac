/** Invariants of every reachable state of the dispatcher, with no assumption on
    its callers (pkg/api/dispatcher.go). */
module DispatcherSafety {
  import opened Protocol
  import opened Dispatcher
  import opened DispatcherRuns

  // Shape: references, owners and program counters fit together.

  predicate Owned(owner: seq<string>, id: string, r: nat) {
    r < |owner| && owner[r] == id
  }

  ghost predicate OwnedLog(owner: seq<string>, log: seq<Envelope>) {
    forall i | 0 <= i < |log| :: log[i].StreamEnvelope? ==> Owned(owner, log[i].id, log[i].ref)
  }

  ghost predicate OwnedProducers(owner: seq<string>, producers: map<nat, Producer>) {
    forall p <- producers :: Owned(owner, producers[p].id, producers[p].ref)
  }

  ghost predicate OwnedStreams(owner: seq<string>, streams: map<string, nat>) {
    forall id <- streams :: Owned(owner, id, streams[id])
  }

  ghost predicate Shape(w: World) {
    && WellFormed(w.core)
    && |w.hist.owner| == |w.core.heap|
    && OwnedStreams(w.hist.owner, w.core.streams)
    && OwnedProducers(w.hist.owner, w.producers)
    && (w.runner.Receiving? || w.runner.Took? || w.runner.FoundEmpty? ==>
          Live(w.core, w.runner.id, w.runner.ref))
    && OwnedLog(w.hist.owner, w.hist.pushes) && OwnedLog(w.hist.owner, w.hist.lost)
    && OwnedLog(w.hist.owner, Outbound(w))
  }

  // No stranded stream, no lost wake-up.

  ghost predicate PushedNotScheduled(producers: map<nat, Producer>, r: nat) {
    exists p :: p in producers && producers[p].phase.Pushed? && producers[p].ref == r
  }

  predicate Held(runner: Runner, id: string) {
    (runner.Receiving? || runner.Took?) && runner.id == id
  }

  /** Somebody is bound to look at the stream again: it stands in the ready
      list, the runner holds it, or a caller is about to schedule it. */
  ghost predicate Attended(w: World, id: string, r: nat)
    requires r < |w.core.heap|
  {
    || (w.core.heap[r].scheduled && id in w.core.ready)
    || Held(w.runner, id)
    || PushedNotScheduled(w.producers, r)
  }

  ghost predicate StreamAttended(w: World, id: string) {
    id in w.core.streams ==>
      var r := w.core.streams[id];
      && r < |w.core.heap|
      && (w.core.heap[r].scheduled ==> id in w.core.ready)
      && (!w.core.closed && w.core.heap[r].queue != [] ==> Attended(w, id, r))
      && (!w.core.closed && w.core.heap[r].draining ==>
            Attended(w, id, r) || (w.runner.FoundEmpty? && w.runner.id == id))
  }

  ghost predicate NoneStranded(w: World) {
    forall id :: StreamAttended(w, id)
  }

  /** A sleeping runner with work to do has its wake token waiting. */
  predicate NoLostWakeup(w: World) {
    w.runner.Asleep? && (w.core.control != [] || w.core.ready != []) ==> w.core.wake
  }

  // Conservation: per stream object, in order.

  predicate LiveRef(w: World, r: nat) {
    r < |w.hist.owner| && Live(w.core, w.hist.owner[r], r)
  }

  /** For one stream object: what has left its queue followed by what is still
      queued is exactly what was pushed, in order; and what sits in an object
      outside the map is exactly what was lost. */
  predicate Balanced(r: nat, live: bool, outbound: seq<Envelope>, queue: seq<Message>,
                     pushes: seq<Envelope>, lost: seq<Envelope>)
  {
    && OfRef(outbound, r) + queue == OfRef(pushes, r)
    && OfRef(lost, r) == (if live then [] else queue)
  }

  ghost predicate RefConserved(w: World, r: nat) {
    r < |w.core.heap| ==>
      Balanced(r, LiveRef(w, r), Outbound(w), w.core.heap[r].queue, w.hist.pushes, w.hist.lost)
  }

  predicate ControlConserved(w: World) {
    OfControl(Outbound(w)) + w.core.control == w.hist.controls
  }

  ghost predicate Conserved(w: World) {
    (forall r: nat :: RefConserved(w, r)) && ControlConserved(w)
  }

  ghost predicate Inv(w: World) {
    Shape(w) && NoneStranded(w) && NoLostWakeup(w) && Conserved(w)
  }

  /** Creating a stream object leaves every earlier ownership in place. */
  lemma OwnersGrow(w: World, id: string)
    requires Shape(w)
    ensures var owner := w.hist.owner + [id];
      && OwnedStreams(owner, w.core.streams) && OwnedProducers(owner, w.producers)
      && OwnedLog(owner, w.hist.pushes) && OwnedLog(owner, w.hist.lost)
      && OwnedLog(owner, Outbound(w))
  {
  }

  lemma ShapeBegin(w: World, p: nat, id: string, msg: Message, final: bool)
    requires Shape(w) && p !in w.producers
    ensures Shape(Begin(w, p, id, msg, final))
  {
    OwnersGrow(w, id);
  }

  /** What leaves a queue in this step, if anything. */
  function Departing(w: World, step: Step): seq<Envelope>
    requires Enabled(w, step)
  {
    if step.Pop? && |w.core.control| > 0 then [ControlEnvelope(w.core.control[0])]
    else if step.Receive? && w.core.heap[w.runner.ref].queue != [] then
      [StreamEnvelope(w.runner.id, w.runner.ref, w.core.heap[w.runner.ref].queue[0])]
    else []
  }

  lemma OutboundStep(w: World, step: Step)
    requires Enabled(w, step)
    ensures Outbound(Apply(w, step)) == Outbound(w) + Departing(w, step)
  {
  }

  lemma ShapePop(w: World)
    requires Shape(w) && Enabled(w, Pop)
    ensures Shape(DoPop(w))
  {
    OutboundStep(w, Pop);
  }

  lemma ShapeReceive(w: World)
    requires Shape(w) && Enabled(w, Receive)
    ensures Shape(Apply(w, Receive))
  {
    OutboundStep(w, Receive);
  }

  lemma ShapeStep(w: World, step: Step)
    requires Shape(w) && Enabled(w, step)
    ensures Shape(Apply(w, step))
  {
    if step.BeginEnqueue? {
      ShapeBegin(w, step.p, step.id, step.msg, step.final);
    } else if step.Pop? {
      ShapePop(w);
    } else if step.Receive? {
      ShapeReceive(w);
    }
  }

  // Every stream in the map stays attended.

  lemma AttendedPop(w: World, id: string)
    requires Shape(w) && StreamAttended(w, id) && Enabled(w, Pop)
    ensures StreamAttended(DoPop(w), id)
  {
    if |w.core.control| == 0 && |w.core.ready| > 0 {
      assert w.core.ready == [w.core.ready[0]] + w.core.ready[1..];
    }
  }

  lemma AttendedReceive(w: World, id: string)
    requires Shape(w) && StreamAttended(w, id) && Enabled(w, Receive)
    ensures StreamAttended(Apply(w, Receive), id)
  {
  }

  lemma AttendedAfter(w: World, step: Step, id: string)
    requires Shape(w) && StreamAttended(w, id) && Enabled(w, step) && (step.AfterTaken? || step.AfterEmpty?)
    ensures StreamAttended(Apply(w, step), id)
  {
  }

  lemma AttendedBegin(w: World, p: nat, id: string, msg: Message, final: bool, id': string)
    requires Shape(w) && StreamAttended(w, id') && p !in w.producers
    ensures StreamAttended(Begin(w, p, id, msg, final), id')
  {
    if id' in w.core.streams && PushedNotScheduled(w.producers, w.core.streams[id']) {
      var q :| q in w.producers && w.producers[q].phase.Pushed? && w.producers[q].ref == w.core.streams[id'];
      assert q in Begin(w, p, id, msg, final).producers;
    }
  }

  lemma AttendedPush(w: World, p: nat, id: string)
    requires Shape(w) && StreamAttended(w, id) && Enabled(w, PushToQueue(p))
    ensures StreamAttended(DoPush(w, p), id)
  {
    var w' := DoPush(w, p);
    assert p in w'.producers && w'.producers[p].phase.Pushed?;
    if id in w.core.streams && PushedNotScheduled(w.producers, w.core.streams[id]) {
      var q :| q in w.producers && w.producers[q].phase.Pushed? && w.producers[q].ref == w.core.streams[id];
      assert q in w'.producers;
    }
  }

  lemma AttendedLeave(w: World, step: Step, id: string)
    requires Shape(w) && StreamAttended(w, id) && Enabled(w, step)
    requires step.FinishEnqueue? || step.AbandonEnqueue?
    ensures StreamAttended(Apply(w, step), id)
  {
    var w' := Apply(w, step);
    if id in w.core.streams && PushedNotScheduled(w.producers, w.core.streams[id]) {
      var q :| q in w.producers && w.producers[q].phase.Pushed? && w.producers[q].ref == w.core.streams[id];
      if q != step.p {
        assert q in w'.producers;
      } else {
        assert step.FinishEnqueue?;
      }
    }
  }

  lemma AttendedStep(w: World, step: Step, id: string)
    requires Shape(w) && StreamAttended(w, id) && Enabled(w, step)
    ensures StreamAttended(Apply(w, step), id)
  {
    match step {
      case Pop => AttendedPop(w, id);
      case Receive => AttendedReceive(w, id);
      case AfterTaken => AttendedAfter(w, step, id);
      case AfterEmpty => AttendedAfter(w, step, id);
      case BeginEnqueue(p, id', msg, final) => AttendedBegin(w, p, id', msg, final, id);
      case PushToQueue(p) => AttendedPush(w, p, id);
      case FinishEnqueue(p) => AttendedLeave(w, step, id);
      case AbandonEnqueue(p) => AttendedLeave(w, step, id);
      case _ =>
    }
  }

  // Nothing is duplicated, reordered or dropped.

  lemma {:induction false} UnownedRef(owner: seq<string>, log: seq<Envelope>, r: nat)
    requires OwnedLog(owner, log) && r >= |owner|
    ensures OfRef(log, r) == []
  {
    if log != [] {
      UnownedRef(owner, log[..|log| - 1], r);
    }
  }

  lemma ConservedBegin(w: World, p: nat, id: string, msg: Message, final: bool, r: nat)
    requires Shape(w) && RefConserved(w, r) && p !in w.producers
    ensures RefConserved(Begin(w, p, id, msg, final), r)
  {
    if r == |w.core.heap| {
      UnownedRef(w.hist.owner, w.hist.pushes, r);
      UnownedRef(w.hist.owner, w.hist.lost, r);
      UnownedRef(w.hist.owner, Outbound(w), r);
    }
  }

  lemma PushBalance(r: nat, live: bool, outbound: seq<Envelope>, queue: seq<Message>,
                    pushes: seq<Envelope>, lost: seq<Envelope>, id: string, msg: Message)
    requires Balanced(r, live, outbound, queue, pushes, lost)
    ensures var out := StreamEnvelope(id, r, msg);
      Balanced(r, live, outbound, queue + [msg], pushes + [out], if live then lost else lost + [out])
  {
    var out := StreamEnvelope(id, r, msg);
    OfRefAppend(pushes, out, r);
    OfRefAppend(lost, out, r);
    assert (OfRef(outbound, r) + queue) + [msg] == OfRef(outbound, r) + (queue + [msg]);
  }

  lemma OtherPushBalance(r: nat, live: bool, outbound: seq<Envelope>, queue: seq<Message>,
                         pushes: seq<Envelope>, lost: seq<Envelope>, out: Envelope)
    requires Balanced(r, live, outbound, queue, pushes, lost) && out.StreamEnvelope? && out.ref != r
    ensures Balanced(r, live, outbound, queue, pushes + [out], lost)
    ensures Balanced(r, live, outbound, queue, pushes + [out], lost + [out])
  {
    OfRefAppend(pushes, out, r);
    OfRefAppend(lost, out, r);
  }

  lemma TakeBalance(r: nat, outbound: seq<Envelope>, queue: seq<Message>,
                    pushes: seq<Envelope>, lost: seq<Envelope>, id: string)
    requires Balanced(r, true, outbound, queue, pushes, lost) && queue != []
    ensures Balanced(r, true, outbound + [StreamEnvelope(id, r, queue[0])], queue[1..], pushes, lost)
  {
    OfRefAppend(outbound, StreamEnvelope(id, r, queue[0]), r);
    assert (OfRef(outbound, r) + [queue[0]]) + queue[1..] == OfRef(outbound, r) + queue;
  }

  lemma OtherTakeBalance(r: nat, live: bool, outbound: seq<Envelope>, queue: seq<Message>,
                         pushes: seq<Envelope>, lost: seq<Envelope>, out: Envelope)
    requires Balanced(r, live, outbound, queue, pushes, lost) && (out.StreamEnvelope? ==> out.ref != r)
    ensures Balanced(r, live, outbound + [out], queue, pushes, lost)
  {
    OfRefAppend(outbound, out, r);
  }

  lemma ConservedPush(w: World, p: nat, r: nat)
    requires Shape(w) && RefConserved(w, r) && Enabled(w, PushToQueue(p))
    ensures RefConserved(DoPush(w, p), r)
  {
    var e := w.producers[p];
    if r < |w.core.heap| {
      if r == e.ref {
        PushBalance(r, LiveRef(w, r), Outbound(w), w.core.heap[r].queue, w.hist.pushes, w.hist.lost, e.id, e.msg);
      } else {
        OtherPushBalance(r, LiveRef(w, r), Outbound(w), w.core.heap[r].queue, w.hist.pushes, w.hist.lost,
                         StreamEnvelope(e.id, e.ref, e.msg));
      }
    }
  }

  lemma ConservedDeparture(w: World, step: Step, r: nat)
    requires Shape(w) && RefConserved(w, r) && Enabled(w, step) && (step.Pop? || step.Receive?)
    ensures RefConserved(Apply(w, step), r)
  {
    OutboundStep(w, step);
    var out := Departing(w, step);
    if r < |w.core.heap| && out != [] {
      if out[0].StreamEnvelope? && out[0].ref == r {
        TakeBalance(r, Outbound(w), w.core.heap[r].queue, w.hist.pushes, w.hist.lost, w.runner.id);
      } else {
        OtherTakeBalance(r, LiveRef(w, r), Outbound(w), w.core.heap[r].queue, w.hist.pushes, w.hist.lost, out[0]);
      }
    }
  }

  /** The map loses at most the stream looked at, and that only with an empty queue. */
  predicate MapLosesEmpty(c: Core, id: string, c': Core) {
    && |c'.heap| == |c.heap| && (forall r | 0 <= r < |c.heap| :: c'.heap[r].queue == c.heap[r].queue)
    && (c'.streams == c.streams
        || (id in c.streams && c.streams[id] < |c.heap| && c.heap[c.streams[id]].queue == []
            && c'.streams == c.streams - {id}))
  }

  lemma AfterLosesEmpty(c: Core, id: string)
    requires forall x <- c.streams :: c.streams[x] < |c.heap|
    ensures MapLosesEmpty(c, id, AfterStreamMessage(c, id)) && MapLosesEmpty(c, id, AfterEmptyStream(c, id))
  {
  }

  lemma ConservedAfter(w: World, step: Step, r: nat)
    requires Shape(w) && RefConserved(w, r) && Enabled(w, step) && (step.AfterTaken? || step.AfterEmpty?)
    ensures RefConserved(Apply(w, step), r)
  {
    AfterLosesEmpty(w.core, w.runner.id);
    var w' := Apply(w, step);
    assert MapLosesEmpty(w.core, w.runner.id, w'.core);
    assert Outbound(w') == Outbound(w) && w'.hist == w.hist;
    if r < |w.core.heap| && !LiveRef(w', r) {
      assert !LiveRef(w, r) || w.core.heap[r].queue == [];
    }
  }

  /** Steps that neither fill nor empty a queue and leave the map alone. */
  lemma ConservedQuiet(w: World, step: Step, r: nat)
    requires Shape(w) && RefConserved(w, r) && Enabled(w, step)
    requires !step.BeginEnqueue? && !step.PushToQueue? && !step.Pop? && !step.Receive?
    requires !step.AfterTaken? && !step.AfterEmpty?
    ensures RefConserved(Apply(w, step), r)
  {
    OutboundStep(w, step);
    var w' := Apply(w, step);
    assert Outbound(w') == Outbound(w);
    assert |w'.core.heap| == |w.core.heap|;
    assert w'.core.streams == w.core.streams && w'.hist.owner == w.hist.owner;
    assert w'.hist.pushes == w.hist.pushes && w'.hist.lost == w.hist.lost;
    if r < |w.core.heap| {
      assert w'.core.heap[r].queue == w.core.heap[r].queue;
    }
  }

  lemma RefConservedStep(w: World, step: Step, r: nat)
    requires Shape(w) && RefConserved(w, r) && Enabled(w, step)
    ensures RefConserved(Apply(w, step), r)
  {
    match step {
      case BeginEnqueue(p, id, msg, final) => ConservedBegin(w, p, id, msg, final, r);
      case PushToQueue(p) => ConservedPush(w, p, r);
      case Pop => ConservedDeparture(w, step, r);
      case Receive => ConservedDeparture(w, step, r);
      case AfterTaken => ConservedAfter(w, step, r);
      case AfterEmpty => ConservedAfter(w, step, r);
      case _ => ConservedQuiet(w, step, r);
    }
  }

  lemma ControlPop(w: World)
    requires Shape(w) && ControlConserved(w) && Enabled(w, Pop)
    ensures ControlConserved(DoPop(w))
  {
    OutboundStep(w, Pop);
    var control := w.core.control;
    if |control| > 0 {
      OfControlAppend(Outbound(w), ControlEnvelope(control[0]));
      assert (OfControl(Outbound(w)) + [control[0]]) + control[1..] == OfControl(Outbound(w)) + control;
    }
  }

  lemma ControlReceive(w: World)
    requires Shape(w) && ControlConserved(w) && Enabled(w, Receive)
    ensures ControlConserved(Apply(w, Receive))
  {
    OutboundStep(w, Receive);
    var out := Departing(w, Receive);
    if out != [] {
      OfControlAppend(Outbound(w), out[0]);
      assert Outbound(Apply(w, Receive)) == Outbound(w) + [out[0]];
    }
  }

  lemma ControlEnqueue(w: World, msg: Message)
    requires ControlConserved(w)
    ensures ControlConserved(Apply(w, EnqueueControl(msg)))
  {
    assert (OfControl(Outbound(w)) + w.core.control) + [msg] == OfControl(Outbound(w)) + (w.core.control + [msg]);
  }

  lemma ControlConservedStep(w: World, step: Step)
    requires Shape(w) && ControlConserved(w) && Enabled(w, step)
    ensures ControlConserved(Apply(w, step))
  {
    match step {
      case Pop => ControlPop(w);
      case Receive => ControlReceive(w);
      case EnqueueControl(msg) => ControlEnqueue(w, msg);
      case _ =>
        OutboundStep(w, step);
        var w' := Apply(w, step);
        assert Outbound(w') == Outbound(w);
        assert w'.core.control == w.core.control && w'.hist.controls == w.hist.controls;
    }
  }

  lemma WakeupStep(w: World, step: Step)
    requires Shape(w) && NoLostWakeup(w) && Enabled(w, step)
    ensures NoLostWakeup(Apply(w, step))
  {
  }

  lemma InvStep(w: World, step: Step)
    requires Inv(w) && Enabled(w, step)
    ensures Inv(Apply(w, step))
  {
    ShapeStep(w, step);
    WakeupStep(w, step);
    ControlConservedStep(w, step);
    forall id ensures StreamAttended(Apply(w, step), id) {
      AttendedStep(w, step, id);
    }
    forall r: nat ensures RefConserved(Apply(w, step), r) {
      RefConservedStep(w, step, r);
    }
  }

  /** Every state of every run satisfies the invariant, whatever the callers do. */
  lemma {:induction false} InvRun(w: World, steps: seq<Step>)
    requires Inv(w) && Feasible(w, steps)
    ensures Inv(Run(w, steps))
    decreases |steps|
  {
    if steps != [] {
      InvStep(w, steps[0]);
      InvRun(Apply(w, steps[0]), steps[1..]);
    }
  }

  lemma InvInit(streamQueueCapacity: int)
    ensures Inv(Init(streamQueueCapacity))
  {
  }

  lemma {:induction false} CapacityKept(w: World, steps: seq<Step>)
    requires Feasible(w, steps)
    ensures Run(w, steps).core.capacity == w.core.capacity
    decreases |steps|
  {
    if steps != [] {
      CapacityStep(w, steps[0]);
      CapacityKept(Apply(w, steps[0]), steps[1..]);
    }
  }

  lemma CapacityStep(w: World, step: Step)
    requires Enabled(w, step)
    ensures Apply(w, step).core.capacity == w.core.capacity
  {
  }

  /** Liveness bookkeeping over every run from a fresh dispatcher, with no rule on
      callers: while it is open no stream with queued messages or a drain mark is
      left unattended, a sleeping runner with work has its wake token, and no
      stream queue exceeds the configured capacity, at least one. */
  lemma NothingStranded(streamQueueCapacity: int, steps: seq<Step>)
    requires Feasible(Init(streamQueueCapacity), steps)
    ensures var w := Run(Init(streamQueueCapacity), steps);
      && NoneStranded(w) && NoLostWakeup(w)
      && w.core.capacity == (if streamQueueCapacity <= 0 then 1 else streamQueueCapacity)
      && (forall r | 0 <= r < |w.core.heap| :: |w.core.heap[r].queue| <= w.core.capacity)
  {
    InvInit(streamQueueCapacity);
    InvRun(Init(streamQueueCapacity), steps);
    CapacityKept(Init(streamQueueCapacity), steps);
  }
}
