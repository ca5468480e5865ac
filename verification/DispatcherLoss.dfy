/** What happens to messages when callers break the final-message rule: exactly
    which ones are lost, and a run that loses one (pkg/api/dispatcher.go). */
module DispatcherLoss {
  import opened Protocol
  import opened Dispatcher
  import opened DispatcherRuns
  import opened DispatcherSafety
  import opened DispatcherDiscipline

  predicate Balance(out: seq<Message>, queued: seq<Message>, lost: seq<Message>, pushed: seq<Message>) {
    multiset(out) + multiset(queued) + multiset(lost) == multiset(pushed)
  }

  /** Every message pushed for x has left, or waits in the map's object for x,
      or was lost; no message is in two places. */
  predicate Accounted(w: World, x: string) {
    Balance(OfId(Outbound(w), x), Queued(w.core, x), OfId(w.hist.lost, x), OfId(w.hist.pushes, x))
  }

  lemma TakeHead(out: seq<Message>, queued: seq<Message>, lost: seq<Message>, pushed: seq<Message>)
    requires Balance(out, queued, lost, pushed) && queued != []
    ensures Balance(out + [queued[0]], queued[1..], lost, pushed)
  {
    assert queued == [queued[0]] + queued[1..];
  }

  lemma PutLast(out: seq<Message>, queued: seq<Message>, lost: seq<Message>, pushed: seq<Message>, msg: Message)
    requires Balance(out, queued, lost, pushed)
    ensures Balance(out, queued + [msg], lost, pushed + [msg])
    ensures Balance(out, queued, lost + [msg], pushed + [msg])
  {
  }

  lemma QueuedPush(w: World, p: nat, x: string)
    requires Shape(w) && Enabled(w, PushToQueue(p))
    ensures var e, w' := w.producers[p], DoPush(w, p);
      Queued(w'.core, x) ==
      if e.id == x && Live(w.core, x, e.ref) then Queued(w.core, x) + [e.msg] else Queued(w.core, x)
  {
    var e := w.producers[p];
    if x in w.core.streams && w.core.streams[x] == e.ref {
      assert Owned(w.hist.owner, x, e.ref) && Owned(w.hist.owner, e.id, e.ref);
    }
  }

  lemma PushLogs(w: World, p: nat, x: string)
    requires Enabled(w, PushToQueue(p))
    ensures var e, w' := w.producers[p], DoPush(w, p);
      && OfId(Outbound(w'), x) == OfId(Outbound(w), x)
      && OfId(w'.hist.pushes, x) ==
         (if e.id == x then OfId(w.hist.pushes, x) + [e.msg] else OfId(w.hist.pushes, x))
      && OfId(w'.hist.lost, x) ==
         (if e.id == x && !Live(w.core, x, e.ref) then OfId(w.hist.lost, x) + [e.msg] else OfId(w.hist.lost, x))
  {
    var e := w.producers[p];
    var out := StreamEnvelope(e.id, e.ref, e.msg);
    OfIdAppend(w.hist.pushes, out, x);
    OfIdAppend(w.hist.lost, out, x);
    assert Outbound(DoPush(w, p)) == Outbound(w);
  }

  lemma AccountedPush(w: World, p: nat, x: string)
    requires Shape(w) && Accounted(w, x) && Enabled(w, PushToQueue(p))
    ensures Accounted(DoPush(w, p), x)
  {
    PushLogs(w, p, x);
    QueuedPush(w, p, x);
    PutLast(OfId(Outbound(w), x), Queued(w.core, x), OfId(w.hist.lost, x), OfId(w.hist.pushes, x),
            w.producers[p].msg);
  }

  lemma QueuedReceive(w: World, x: string)
    requires Shape(w) && Enabled(w, Receive)
    ensures var queued, queued' := Queued(w.core, x), Queued(Apply(w, Receive).core, x);
      if w.runner.id == x && queued != [] then
        && Departing(w, Receive) == [StreamEnvelope(x, w.runner.ref, queued[0])]
        && queued' == queued[1..]
      else
        && queued' == queued
        && (Departing(w, Receive) != [] ==> Departing(w, Receive)[0].id != x)
  {
    if x in w.core.streams && w.core.streams[x] == w.runner.ref {
      assert Owned(w.hist.owner, x, w.runner.ref) && Owned(w.hist.owner, w.runner.id, w.runner.ref);
    }
  }

  /** A receive moves the head of one queue, or nothing that is x's. */
  predicate Moves(out: seq<Message>, queued: seq<Message>, out': seq<Message>, queued': seq<Message>) {
    || (out' == out && queued' == queued)
    || (queued != [] && out' == out + [queued[0]] && queued' == queued[1..])
  }

  lemma ReceiveMoves(w: World, x: string) returns (w': World)
    requires Shape(w) && Enabled(w, Receive)
    ensures w' == Apply(w, Receive) && w'.hist == w.hist
    ensures Moves(OfId(Outbound(w), x), Queued(w.core, x), OfId(Outbound(w'), x), Queued(w'.core, x))
  {
    w' := Apply(w, Receive);
    OutboundStep(w, Receive);
    QueuedReceive(w, x);
    var out := Departing(w, Receive);
    if out == [] {
      assert Outbound(w) + out == Outbound(w);
    } else {
      OfIdAppend(Outbound(w), out[0], x);
      assert Outbound(w') == Outbound(w) + [out[0]];
    }
  }

  lemma AccountedReceive(w: World, x: string)
    requires Shape(w) && Accounted(w, x) && Enabled(w, Receive)
    ensures Accounted(Apply(w, Receive), x)
  {
    var w' := ReceiveMoves(w, x);
    if Queued(w.core, x) != [] {
      TakeHead(OfId(Outbound(w), x), Queued(w.core, x), OfId(w.hist.lost, x), OfId(w.hist.pushes, x));
    }
  }

  lemma QueuedAfter(w: World, step: Step, x: string)
    requires Shape(w) && Enabled(w, step) && (step.AfterTaken? || step.AfterEmpty?)
    ensures Queued(Apply(w, step).core, x) == Queued(w.core, x)
  {
  }

  lemma QueuedKept(w: World, step: Step, x: string)
    requires Shape(w) && Enabled(w, step) && !step.PushToQueue? && !step.Receive?
    ensures Queued(Apply(w, step).core, x) == Queued(w.core, x)
  {
    if step.AfterTaken? || step.AfterEmpty? {
      QueuedAfter(w, step, x);
    }
  }

  lemma LogsKept(w: World, step: Step)
    requires Enabled(w, step) && !step.PushToQueue?
    ensures var w' := Apply(w, step); w'.hist.pushes == w.hist.pushes && w'.hist.lost == w.hist.lost
  {
  }

  lemma OutboundKept(w: World, step: Step, x: string)
    requires Enabled(w, step) && !step.Receive?
    ensures OfId(Outbound(Apply(w, step)), x) == OfId(Outbound(w), x)
  {
    OutboundStep(w, step);
    var out := Departing(w, step);
    if out == [] {
      assert Outbound(Apply(w, step)) == Outbound(w);
    } else {
      OfIdAppend(Outbound(w), out[0], x);
      assert Outbound(Apply(w, step)) == Outbound(w) + [out[0]];
    }
  }

  lemma AccountedStep(w: World, step: Step, x: string)
    requires Shape(w) && Accounted(w, x) && Enabled(w, step)
    ensures Accounted(Apply(w, step), x)
  {
    if step.PushToQueue? {
      AccountedPush(w, step.p, x);
    } else if step.Receive? {
      AccountedReceive(w, x);
    } else {
      OutboundKept(w, step, x);
      QueuedKept(w, step, x);
      LogsKept(w, step);
    }
  }

  /** Every channel send on x in the run went to the object the map held. */
  ghost predicate PushesLandLive(w: World, steps: seq<Step>, x: string)
    requires Feasible(w, steps)
    decreases |steps|
  {
    steps == [] ||
    (&& (steps[0].PushToQueue? && w.producers[steps[0].p].id == x ==> Live(w.core, x, w.producers[steps[0].p].ref))
     && PushesLandLive(Apply(w, steps[0]), steps[1..], x))
  }

  lemma LostGrows(w: World, step: Step, x: string)
    requires Enabled(w, step)
    ensures var w' := Apply(w, step);
      OfId(w'.hist.lost, x) ==
      if step.PushToQueue? && w.producers[step.p].id == x && !Live(w.core, x, w.producers[step.p].ref)
      then OfId(w.hist.lost, x) + [w.producers[step.p].msg] else OfId(w.hist.lost, x)
  {
    if step.PushToQueue? {
      PushLogs(w, step.p, x);
    } else {
      LogsKept(w, step);
    }
  }

  lemma {:induction false} LossRun(w: World, steps: seq<Step>, x: string)
    requires Inv(w) && Accounted(w, x) && Feasible(w, steps)
    ensures Inv(Run(w, steps)) && Accounted(Run(w, steps), x)
    ensures OfId(w.hist.lost, x) <= OfId(Run(w, steps).hist.lost, x)
    ensures OfId(Run(w, steps).hist.lost, x) == OfId(w.hist.lost, x) <==> PushesLandLive(w, steps, x)
    decreases |steps|
  {
    if steps != [] {
      InvStep(w, steps[0]);
      AccountedStep(w, steps[0], x);
      LostGrows(w, steps[0], x);
      LossRun(Apply(w, steps[0]), steps[1..], x);
    }
  }

  /** Delivery of everything pushed to x holds in a run exactly when each send
      on x found the map still holding the object it was sending to. */
  lemma LossExactly(streamQueueCapacity: int, steps: seq<Step>, x: string)
    requires Feasible(Init(streamQueueCapacity), steps)
    ensures var w := Run(Init(streamQueueCapacity), steps);
      multiset(OfId(Outbound(w), x)) + multiset(Queued(w.core, x)) == multiset(OfId(w.hist.pushes, x))
      <==> PushesLandLive(Init(streamQueueCapacity), steps, x)
  {
    var w := Init(streamQueueCapacity);
    InvInit(streamQueueCapacity);
    LossRun(w, steps, x);
    var w' := Run(w, steps);
    if OfId(w'.hist.lost, x) != [] {
      assert OfId(w'.hist.lost, x)[0] in multiset(OfId(w'.hist.lost, x));
      assert |multiset(OfId(w'.hist.lost, x))| > 0;
      assert |multiset(OfId(Outbound(w'), x)) + multiset(Queued(w'.core, x)) + multiset(OfId(w'.hist.lost, x))|
             == |multiset(OfId(Outbound(w'), x)) + multiset(Queued(w'.core, x))| + |multiset(OfId(w'.hist.lost, x))|;
    }
  }

  /** A message in an object that has left the map stays there for good. */
  lemma {:induction false} LostForever(w: World, steps: seq<Step>, r: nat)
    requires Inv(w) && Feasible(w, steps) && r < |w.core.heap| && !LiveRef(w, r)
    ensures var w' := Run(w, steps);
      r < |w'.core.heap| && !LiveRef(w', r) && w.core.heap[r].queue <= w'.core.heap[r].queue
    decreases |steps|
  {
    if steps != [] {
      DeadStep(w, steps[0], r);
      InvStep(w, steps[0]);
      LostForever(Apply(w, steps[0]), steps[1..], r);
    }
  }

  lemma DeadStep(w: World, step: Step, r: nat)
    requires Shape(w) && Enabled(w, step) && r < |w.core.heap| && !LiveRef(w, r)
    ensures var w' := Apply(w, step);
      r < |w'.core.heap| && !LiveRef(w', r) && w.core.heap[r].queue <= w'.core.heap[r].queue
  {
    if step.Pop? {
      DeadPop(w, r);
    } else if step.AfterTaken? || step.AfterEmpty? {
      DeadAfter(w, step, r);
    }
  }

  lemma DeadPop(w: World, r: nat)
    requires Shape(w) && Enabled(w, Pop) && r < |w.core.heap| && !LiveRef(w, r)
    ensures var w' := DoPop(w);
      r < |w'.core.heap| && !LiveRef(w', r) && w.core.heap[r].queue == w'.core.heap[r].queue
  {
  }

  lemma DeadAfter(w: World, step: Step, r: nat)
    requires Shape(w) && Enabled(w, step) && (step.AfterTaken? || step.AfterEmpty?)
    requires r < |w.core.heap| && !LiveRef(w, r)
    ensures var w' := Apply(w, step);
      r < |w'.core.heap| && !LiveRef(w', r) && w.core.heap[r].queue == w'.core.heap[r].queue
  {
  }

  // A concrete run that loses a message.

  lemma {:induction false} Extend(w: World, steps: seq<Step>, step: Step)
    requires Feasible(w, steps) && Enabled(Run(w, steps), step)
    ensures Feasible(w, steps + [step]) && Run(w, steps + [step]) == Apply(Run(w, steps), step)
    decreases |steps|
  {
    if steps == [] {
      assert steps + [step] == [step];
      assert Feasible(Apply(w, step), []);
    } else {
      Extend(Apply(w, steps[0]), steps[1..], step);
      assert (steps + [step])[0] == steps[0] && (steps + [step])[1..] == steps[1..] + [step];
    }
  }

  predicate LosesInRun(w: World, body: Message) {
    OfId(w.hist.lost, "a") == [body] && w.producers == map[]
  }

  /** Two callers of one stream overlap, the second with its final message. The
      first has its pointer, the final message is sent and the stream deleted,
      and then the first sends: its call succeeds and its message is lost. */
  lemma OverlapLosesMessage(body: Message, end: Message)
    ensures exists steps :: Feasible(Init(2), steps) && LosesInRun(Run(Init(2), steps), body)
  {
    var s := BothLooked(body, end);
    s := FinalEnqueued(s, body, end);
    s := FinalSent(s, body, end);
    s := LateSend(s, body);
  }

  lemma BothLooked(body: Message, end: Message) returns (s: seq<Step>)
    ensures Feasible(Init(2), s)
    ensures var w := Run(Init(2), s);
      && w.core == Core(2, [], [Stream([], false, false)], map["a" := 0], [], false, false, false)
      && w.runner == AtTop && w.hist.lost == []
      && w.producers == map[0 := Producer(Looked, "a", 0, body, false), 1 := Producer(Looked, "a", 0, end, true)]
  {
    var w := Init(2);
    s := [];
    Extend(w, s, BeginEnqueue(0, "a", body, false)); s := s + [BeginEnqueue(0, "a", body, false)];
    assert Run(w, s).core.heap == [Stream([], false, false)];
    assert Run(w, s).core.streams == map["a" := 0];
    Extend(w, s, BeginEnqueue(1, "a", end, true)); s := s + [BeginEnqueue(1, "a", end, true)];
  }

  lemma FinalEnqueued(before: seq<Step>, body: Message, end: Message) returns (s: seq<Step>)
    requires Feasible(Init(2), before)
    requires var w := Run(Init(2), before);
      && w.core == Core(2, [], [Stream([], false, false)], map["a" := 0], [], false, false, false)
      && w.runner == AtTop && w.hist.lost == []
      && w.producers == map[0 := Producer(Looked, "a", 0, body, false), 1 := Producer(Looked, "a", 0, end, true)]
    ensures Feasible(Init(2), s)
    ensures var w := Run(Init(2), s);
      && w.core == Core(2, [], [Stream([end], true, true)], map["a" := 0], ["a"], false, false, true)
      && w.runner == AtTop && w.hist.lost == []
      && w.producers == map[0 := Producer(Looked, "a", 0, body, false)]
  {
    var w := Init(2);
    s := before;
    Extend(w, s, PushToQueue(1)); s := s + [PushToQueue(1)];
    assert [] + [end] == [end];
    assert Run(w, s).core.heap == [Stream([end], false, false)];
    Extend(w, s, FinishEnqueue(1)); s := s + [FinishEnqueue(1)];
    assert Run(w, s).core.heap == [Stream([end], true, true)];
    assert Run(w, s).core.ready == ["a"];
  }

  lemma FinalSent(before: seq<Step>, body: Message, end: Message) returns (s: seq<Step>)
    requires Feasible(Init(2), before)
    requires var w := Run(Init(2), before);
      && w.core == Core(2, [], [Stream([end], true, true)], map["a" := 0], ["a"], false, false, true)
      && w.runner == AtTop && w.hist.lost == []
      && w.producers == map[0 := Producer(Looked, "a", 0, body, false)]
    ensures Feasible(Init(2), s)
    ensures var w := Run(Init(2), s);
      && w.core == Core(2, [], [Stream([], false, true)], map[], [], false, false, true)
      && w.hist.lost == []
      && w.producers == map[0 := Producer(Looked, "a", 0, body, false)]
  {
    var w := Init(2);
    s := before;
    Extend(w, s, Pop); s := s + [Pop];
    assert Run(w, s).core.heap == [Stream([end], false, true)] && Run(w, s).core.ready == [];
    Extend(w, s, Receive); s := s + [Receive];
    assert [end][1..] == [];
    assert Run(w, s).core.heap == [Stream([], false, true)];
    Extend(w, s, AfterTaken); s := s + [AfterTaken];
    assert Run(w, s).core.streams == map[];
  }

  lemma LateSend(before: seq<Step>, body: Message) returns (s: seq<Step>)
    requires Feasible(Init(2), before)
    requires var w := Run(Init(2), before);
      && w.core == Core(2, [], [Stream([], false, true)], map[], [], false, false, true)
      && w.hist.lost == []
      && w.producers == map[0 := Producer(Looked, "a", 0, body, false)]
    ensures Feasible(Init(2), s) && LosesInRun(Run(Init(2), s), body)
  {
    var w := Init(2);
    var out := StreamEnvelope("a", 0, body);
    Extend(w, before, PushToQueue(0)); s := before + [PushToQueue(0)];
    assert Run(w, s).hist.lost == [out];
    OfIdAppend([], out, "a");
    assert [] + [out] == [out];
    Extend(w, s, FinishEnqueue(0)); s := s + [FinishEnqueue(0)];
    assert Run(w, s).producers == map[];
  }
}
