/** The loop of next, called by itself, is a run of the dispatcher's state machine,
    and calling it again and again sends everything that waits
    (pkg/api/dispatcher.go). */
module DispatcherNext {
  import opened Protocol
  import opened Dispatcher
  import opened DispatcherRuns
  import opened DispatcherSafety
  import opened DispatcherDrain

  /** A section of next. */
  predicate OfNext(step: Step) {
    step.Pop? || step.Receive? || step.AfterTaken? || step.AfterEmpty?
  }

  ghost predicate AllOfNext(steps: seq<Step>) {
    forall i | 0 <= i < |steps| :: OfNext(steps[i])
  }

  /** How a call of next leaves the runner. */
  predicate Answers(w: World, outcome: Outcome) {
    match outcome
    case Delivers(msg) => w.runner.Sending? && w.runner.out.msg == msg
    case WouldSleep => w.runner == (if w.core.closed then Returned else Asleep)
  }

  /** Only the core and the runner have moved. */
  predicate SameOutside(w: World, w': World) {
    w'.producers == w.producers && w'.hist == w.hist
  }

  lemma Prepend(w: World, step: Step, rest: seq<Step>) returns (steps: seq<Step>)
    requires Enabled(w, step) && Feasible(Apply(w, step), rest)
    requires OfNext(step) && AllOfNext(rest)
    ensures Feasible(w, steps) && Run(w, steps) == Run(Apply(w, step), rest)
    ensures AllOfNext(steps)
  {
    steps := [step] + rest;
    assert steps[1..] == rest;
  }

  lemma SectionKeeps(w: World, step: Step) returns (w': World)
    requires Inv(w) && Enabled(w, step) && OfNext(step)
    ensures w' == Apply(w, step) && Inv(w') && SameOutside(w, w')
  {
    InvStep(w, step);
    w' := Apply(w, step);
  }

  /** From the receive on: what happens to the popped stream. */
  lemma StreamIsRun(w: World, id: string, r: nat) returns (w': World, steps: seq<Step>)
    requires Inv(w) && w.runner == Receiving(id, r) && r < |w.core.heap|
    ensures Feasible(w, steps) && w' == Run(w, steps) && Inv(w') && SameOutside(w, w')
    ensures AllOfNext(steps)
    ensures var queue := w.core.heap[r].queue;
      if queue == [] then w'.runner.AtTop? && w'.core == AfterEmptyStream(w.core, id)
      else w'.core == AfterStreamMessage(TakeMessage(w.core, r), id) && Answers(w', Delivers(queue[0]))
  {
    var received := SectionKeeps(w, Receive);
    var last := if w.core.heap[r].queue == [] then AfterEmpty else AfterTaken;
    w' := SectionKeeps(received, last);
    steps := Prepend(received, last, []);
    steps := Prepend(w, Receive, steps);
  }

  lemma {:induction false} Chain(w: World, a: seq<Step>, b: seq<Step>)
    requires Feasible(w, a) && Feasible(Run(w, a), b)
    ensures Feasible(w, a + b) && Run(w, a + b) == Run(Run(w, a), b)
    decreases |a|
  {
    if a == [] {
      assert a + b == b;
    } else {
      assert (a + b)[1..] == a[1..] + b;
      Chain(Apply(w, a[0]), a[1..], b);
    }
  }

  /** A section, what follows it, and what follows that. */
  lemma Follow(w: World, step: Step, middle: seq<Step>, last: seq<Step>) returns (steps: seq<Step>)
    requires Enabled(w, step) && Feasible(Apply(w, step), middle) && Feasible(Run(Apply(w, step), middle), last)
    requires OfNext(step) && AllOfNext(middle) && AllOfNext(last)
    ensures Feasible(w, steps) && Run(w, steps) == Run(Run(Apply(w, step), middle), last) && AllOfNext(steps)
  {
    Chain(Apply(w, step), middle, last);
    steps := Prepend(w, step, middle + last);
  }

  /** One undisturbed call of next is a run of its sections, in a state where the
      runner is at the top of the loop: the same core, the same answer. */
  lemma {:induction false} NextIsRun(w: World) returns (w': World, steps: seq<Step>)
    requires Inv(w) && w.runner.AtTop?
    ensures Feasible(w, steps) && w' == Run(w, steps) && Inv(w') && SameOutside(w, w')
    ensures AllOfNext(steps)
    ensures w'.core == NextAlone(w.core).0 && Answers(w', NextAlone(w.core).1)
    decreases |w.core.ready|
  {
    var popped := SectionKeeps(w, Pop);
    match PopNext(w.core).1 {
      case PoppedControl(msg) =>
        w' := popped;
        steps := Prepend(w, Pop, []);
      case PoppedNothing =>
        w' := popped;
        steps := Prepend(w, Pop, []);
      case PoppedStale =>
        w', steps := NextIsRun(popped);
        steps := Prepend(w, Pop, steps);
      case PoppedStream(id, r) =>
        var after, first := StreamIsRun(popped, id, r);
        var later: seq<Step> := [];
        w' := after;
        if popped.core.heap[r].queue == [] {
          w', later := NextIsRun(after);
        }
        steps := Follow(w, Pop, first, later);
    }
  }

  // Calling next again and again.

  ghost predicate Pointed(c: Core) {
    forall id <- c.streams :: c.streams[id] < |c.heap|
  }

  lemma {:induction false} NextPointed(c: Core)
    requires Pointed(c)
    ensures Pointed(NextAlone(c).0)
    decreases |c.ready|
  {
    var (c', popped) := PopNext(c);
    if popped.PoppedStale? {
      NextPointed(c');
    } else if popped.PoppedStream? && c'.heap[popped.ref].queue == [] {
      NextPointed(AfterEmptyStream(c', popped.id));
    }
  }

  /** What repeated calls return until one finds nothing to do. */
  ghost function Answered(c: Core): seq<Message>
    requires Pointed(c)
    decreases Work(c)
  {
    var (c', outcome) := NextAlone(c);
    NextUsesUpWork(c);
    NextPointed(c);
    if outcome.WouldSleep? then [] else [outcome.msg] + Answered(c')
  }

  function Messages(log: seq<Envelope>): seq<Message> {
    seq(|log|, i requires 0 <= i < |log| => log[i].msg)
  }

  /** A call of next and, if it returns a message, the send of it. */
  lemma CallAndSend(w: World) returns (w': World, sent: seq<Envelope>)
    requires Inv(w) && w.runner.AtTop? && !w.core.closed
    ensures Inv(w') && w'.core == NextAlone(w.core).0 && !w'.core.closed && |w'.core.heap| == |w.core.heap|
    ensures w'.producers == w.producers && w'.hist == w.hist.(wire := w.hist.wire + sent)
    ensures match NextAlone(w.core).1
      case Delivers(msg) => w'.runner.AtTop? && |sent| == 1 && sent[0].msg == msg
      case WouldSleep => w'.runner.Asleep? && sent == []
  {
    var steps;
    w', steps := NextIsRun(w);
    NextKeepsOpen(w.core);
    if w'.runner.Asleep? {
      sent := [];
      assert w.hist.wire + [] == w.hist.wire;
    } else {
      sent := [w'.runner.out];
      InvStep(w', SendOk);
      w' := Apply(w', SendOk);
    }
  }

  /** The calls, with each message sent, as one stretch of the runner. */
  lemma {:induction false} CallsAreRun(w: World) returns (d: World, sent: seq<Envelope>)
    requires Inv(w) && w.runner.AtTop? && !w.core.closed
    ensures Inv(d) && d.runner.Asleep? && d.core.control == [] && d.core.ready == [] && !d.core.closed
    ensures d.producers == w.producers && d.hist == w.hist.(wire := w.hist.wire + sent)
    ensures |w.core.heap| == |d.core.heap| && Messages(sent) == Answered(w.core)
    decreases Work(w.core)
  {
    NextUsesUpWork(w.core);
    d, sent := CallAndSend(w);
    if d.runner.AtTop? {
      var first, later := sent, [];
      d, later := CallsAreRun(d);
      sent := first + later;
      assert (w.hist.wire + first) + later == w.hist.wire + sent;
      assert Messages(sent) == [first[0].msg] + Messages(later);
    }
  }

  lemma {:induction false} NextKeepsOpen(c: Core)
    requires Pointed(c)
    ensures NextAlone(c).0.closed == c.closed && |NextAlone(c).0.heap| == |c.heap|
    decreases |c.ready|
  {
    var (c', popped) := PopNext(c);
    if popped.PoppedStale? {
      NextKeepsOpen(c');
    } else if popped.PoppedStream? && c'.heap[popped.ref].queue == [] {
      NextKeepsOpen(AfterEmptyStream(c', popped.id));
    }
  }

  lemma {:induction false} OfRefConcat(a: seq<Envelope>, b: seq<Envelope>, r: nat)
    ensures OfRef(a + b, r) == OfRef(a, r) + OfRef(b, r)
    decreases |b|
  {
    if b == [] {
      assert a + b == a;
    } else {
      assert (a + b)[..|a + b| - 1] == a + b[..|b| - 1];
      OfRefConcat(a, b[..|b| - 1], r);
    }
  }

  lemma {:induction false} OfControlConcat(a: seq<Envelope>, b: seq<Envelope>)
    ensures OfControl(a + b) == OfControl(a) + OfControl(b)
    decreases |b|
  {
    if b == [] {
      assert a + b == a;
    } else {
      assert (a + b)[..|a + b| - 1] == a + b[..|b| - 1];
      OfControlConcat(a, b[..|b| - 1]);
    }
  }

  lemma QueueEmptied(w: World, d: World, id: string)
    requires Inv(w) && Inv(d) && id in w.core.streams && w.core.streams[id] < |w.core.heap| && w.producers == map[]
    requires d.runner.Asleep? && d.core.control == [] && d.core.ready == [] && !d.core.closed
    requires d.producers == map[] && d.hist.lost == w.hist.lost && d.hist.owner == w.hist.owner
    requires |w.core.heap| == |d.core.heap|
    ensures d.core.heap[w.core.streams[id]].queue == []
  {
    var r := w.core.streams[id];
    assert StreamAttended(w, id) && StreamAttended(d, id);
    assert RefConserved(w, r) && RefConserved(d, r);
    assert Owned(w.hist.owner, id, r);
  }

  /** Repeated calls of next, with no caller in the way, return all waiting control
      messages and, of every stream in the map, its whole queue, in order: what they
      return is a sequence of sends of which stream's messages are that queue. */
  lemma RepeatedCallsSendAll(w: World) returns (sent: seq<Envelope>)
    requires Inv(w) && w.runner.AtTop? && !w.core.closed && w.producers == map[]
    ensures Messages(sent) == Answered(w.core)
    ensures OfControl(sent) == w.core.control
    ensures forall id <- w.core.streams :: OfRef(sent, w.core.streams[id]) == w.core.heap[w.core.streams[id]].queue
  {
    var d;
    d, sent := CallsAreRun(w);
    ControlSent(w, d, sent);
    forall id | id in w.core.streams
      ensures OfRef(sent, w.core.streams[id]) == w.core.heap[w.core.streams[id]].queue
    {
      QueueEmptied(w, d, id);
      QueueSent(w, d, sent, w.core.streams[id]);
    }
  }

  lemma Cancel<T>(a: seq<T>, b: seq<T>, c: seq<T>)
    requires a + b == a + c
    ensures b == c
  {
    assert b == (a + b)[|a|..] && c == (a + c)[|a|..];
  }

  lemma ControlSent(w: World, d: World, sent: seq<Envelope>)
    requires Inv(w) && Inv(d) && w.runner.AtTop? && d.runner.Asleep? && d.core.control == []
    requires d.hist == w.hist.(wire := w.hist.wire + sent)
    ensures OfControl(sent) == w.core.control
  {
    assert ControlConserved(w) && ControlConserved(d);
    assert Outbound(w) == w.hist.wire && Outbound(d) == w.hist.wire + sent;
    OfControlConcat(w.hist.wire, sent);
    Cancel(OfControl(w.hist.wire), OfControl(sent), w.core.control);
  }

  lemma RefBalance(w: World, r: nat)
    requires Inv(w) && r < |w.core.heap|
    ensures OfRef(Outbound(w), r) + w.core.heap[r].queue == OfRef(w.hist.pushes, r)
  {
    assert RefConserved(w, r);
  }

  lemma QueueSent(w: World, d: World, sent: seq<Envelope>, r: nat)
    requires Inv(w) && Inv(d) && w.runner.AtTop? && d.runner.Asleep?
    requires d.hist == w.hist.(wire := w.hist.wire + sent)
    requires r < |w.core.heap| == |d.core.heap| && d.core.heap[r].queue == []
    ensures OfRef(sent, r) == w.core.heap[r].queue
  {
    RefBalance(w, r);
    RefBalance(d, r);
    assert Outbound(w) == w.hist.wire && Outbound(d) == w.hist.wire + sent;
    OfRefConcat(w.hist.wire, sent, r);
    Cancel(OfRef(w.hist.wire, r), OfRef(sent, r), w.core.heap[r].queue);
  }
}
