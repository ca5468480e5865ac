/** Round-robin fairness between streams, for every run of the dispatcher
    (pkg/api/dispatcher.go). */
module DispatcherFairness {
  import opened Protocol
  import opened Dispatcher
  import opened DispatcherRuns
  import opened DispatcherDiscipline
  import opened DispatcherSafety

  /** The stream ids a step takes off the front of the ready list (none or one). */
  function StepPops(w: World, step: Step): seq<string> {
    if step.Pop? && |w.core.control| == 0 && |w.core.ready| > 0 then [w.core.ready[0]] else []
  }

  /** The stream ids whose message a step takes out of a queue (none or one). */
  function StepTakes(w: World, step: Step): seq<string> {
    if step.Receive? && w.runner.Receiving? && w.runner.ref < |w.core.heap|
       && w.core.heap[w.runner.ref].queue != []
    then [w.runner.id] else []
  }

  ghost function Pops(w: World, steps: seq<Step>): seq<string>
    requires Feasible(w, steps)
    decreases |steps|
  {
    if steps == [] then [] else StepPops(w, steps[0]) + Pops(Apply(w, steps[0]), steps[1..])
  }

  ghost function Takes(w: World, steps: seq<Step>): seq<string>
    requires Feasible(w, steps)
    decreases |steps|
  {
    if steps == [] then [] else StepTakes(w, steps[0]) + Takes(Apply(w, steps[0]), steps[1..])
  }

  /** `popped` is the front of `ready`, and the rest stands in front of `ready'`. */
  predicate PoppedFrom(ready: seq<string>, popped: seq<string>, ready': seq<string>) {
    |popped| <= |ready| && popped == ready[..|popped|] && ready[|popped|..] <= ready'
  }

  lemma ReadyStep(w: World, step: Step) returns (next: World)
    requires Enabled(w, step)
    ensures next == Apply(w, step) && PoppedFrom(w.core.ready, StepPops(w, step), next.core.ready)
  {
    next := Apply(w, step);
    if step.Pop? && |w.core.control| == 0 && |w.core.ready| > 0 {
      assert w.core.ready[..1] == [w.core.ready[0]];
    }
  }

  /** Taking from the front of a list that grows at the back. */
  lemma FrontFirst<T>(list: seq<T>, middle: seq<T>, last: seq<T>, a: nat, b: nat)
    requires a + b <= |list| && list[a..] <= middle && b <= |middle| && middle[b..] <= last
    ensures list[..a] + middle[..b] == list[..a + b] && list[a + b..] <= last
  {
    assert middle[..b] == list[a..][..b];
    assert list[a + b..] == list[a..][b..];
    assert list[a..][b..] <= middle[b..];
  }

  lemma PoppedTwice(a: seq<string>, first: seq<string>, b: seq<string>, later: seq<string>, c: seq<string>)
    requires PoppedFrom(a, first, b) && |first| + |later| <= |a| && (|later| <= |b| ==> PoppedFrom(b, later, c))
    ensures PoppedFrom(a, first + later, c)
  {
    FrontFirst(a, b, c, |first|, |later|);
  }

  /** The ready list is a queue: what leaves it is what stood in front, in the
      same order, until the run has popped past the ids that were there. */
  lemma {:induction false} PopsInOrder(w: World, steps: seq<Step>)
    requires Feasible(w, steps)
    ensures |Pops(w, steps)| <= |w.core.ready| ==> Pops(w, steps) == w.core.ready[..|Pops(w, steps)|]
    ensures |Pops(w, steps)| <= |w.core.ready| ==>
              w.core.ready[|Pops(w, steps)|..] <= Run(w, steps).core.ready
    decreases |steps|
  {
    if steps != [] {
      var next := ReadyStep(w, steps[0]);
      PopsInOrder(next, steps[1..]);
      var first, later := StepPops(w, steps[0]), Pops(next, steps[1..]);
      if |first + later| <= |w.core.ready| {
        PoppedTwice(w.core.ready, first, next.core.ready, later, Run(next, steps[1..]).core.ready);
      }
    }
  }

  /** One if the runner holds a pop of y that may still yield a message. */
  function Holding(runner: Runner, y: string): nat {
    if runner.Receiving? && runner.id == y then 1 else 0
  }

  function InProgress(runner: Runner): nat {
    if runner.Receiving? then 1 else 0
  }

  lemma TakeNeedsPop(w: World, step: Step, y: string)
    requires Enabled(w, step)
    ensures multiset(StepTakes(w, step))[y] + Holding(Apply(w, step).runner, y)
            <= multiset(StepPops(w, step))[y] + Holding(w.runner, y)
    ensures |StepTakes(w, step)| + InProgress(Apply(w, step).runner)
            <= |StepPops(w, step)| + InProgress(w.runner)
  {
  }

  /** A stream sends at most one message for each time it is popped. */
  lemma {:induction false} TakesBounded(w: World, steps: seq<Step>, y: string)
    requires Feasible(w, steps)
    ensures multiset(Takes(w, steps))[y] <= multiset(Pops(w, steps))[y] + Holding(w.runner, y)
    ensures |Takes(w, steps)| <= |Pops(w, steps)| + InProgress(w.runner)
    decreases |steps|
  {
    if steps != [] {
      TakeNeedsPop(w, steps[0], y);
      TakesBounded(Apply(w, steps[0]), steps[1..], y);
    }
  }

  lemma {:induction false} OncePrefix(ready: seq<string>, y: string, n: nat)
    requires AtMostOnce(ready, y) && n <= |ready|
    ensures multiset(ready[..n])[y] <= 1
    decreases n
  {
    if n > 0 {
      OncePrefix(ready, y, n - 1);
      assert ready[..n] == ready[..n - 1] + [ready[n - 1]];
      if ready[n - 1] == y {
        assert y !in ready[..n - 1];
      }
    }
  }

  /** A stream at place k is still in the list after at most k pops. */
  lemma StillWaiting(w: World, steps: seq<Step>, k: nat)
    requires Feasible(w, steps) && k < |w.core.ready| && |Pops(w, steps)| <= k
    ensures w.core.ready[k] in Run(w, steps).core.ready
  {
    PopsInOrder(w, steps);
    var n := |Pops(w, steps)|;
    assert w.core.ready[n..][k - n] == w.core.ready[k];
  }

  /** Fairness. While the stream at place k of the ready list has not been
      popped, at most k messages of other streams leave (plus the one the runner
      may already have been fetching), and a stream that keeps the final-message
      rule contributes at most one of them, however much it has queued. */
  lemma RoundRobin(w: World, steps: seq<Step>, k: nat, y: string)
    requires Feasible(w, steps) && k < |w.core.ready| && |Pops(w, steps)| <= k
    ensures |Takes(w, steps)| <= k + InProgress(w.runner)
    ensures AtMostOnce(w.core.ready, y) ==> multiset(Takes(w, steps))[y] <= 1 + Holding(w.runner, y)
  {
    TakesBounded(w, steps, y);
    PopsInOrder(w, steps);
    if AtMostOnce(w.core.ready, y) {
      OncePrefix(w.core.ready, y, |Pops(w, steps)|);
    }
  }

  // Control messages go first.

  /** How often the runner looks for work. */
  function Look(step: Step): nat {
    if step.Pop? then 1 else 0
  }

  function Looks(steps: seq<Step>): nat {
    if steps == [] then 0 else Look(steps[0]) + Looks(steps[1..])
  }

  /** From one state to another the runner has taken n control messages from the
      front, and the others still wait in front. */
  ghost predicate ControlTaken(w: World, n: nat, w': World) {
    && n <= |w.core.control| && w.core.control[n..] <= w'.core.control
    && OfControl(Outbound(w')) == OfControl(Outbound(w)) + w.core.control[..n]
  }

  lemma ControlStep(w: World, step: Step) returns (next: World)
    requires Enabled(w, step) && Look(step) <= |w.core.control|
    ensures next == Apply(w, step) && StepPops(w, step) == [] && ControlTaken(w, Look(step), next)
  {
    next := Apply(w, step);
    OutboundStep(w, step);
    var leaving := Departing(w, step);
    if leaving == [] {
      assert Outbound(w) + leaving == Outbound(w);
    } else {
      OfControlAppend(Outbound(w), leaving[0]);
    }
  }

  lemma TakenTwice(a: World, m: nat, b: World, n: nat, c: World)
    requires ControlTaken(a, m, b) && ControlTaken(b, n, c) && m + n <= |a.core.control|
    ensures ControlTaken(a, m + n, c)
  {
    FrontFirst(a.core.control, b.core.control, c.core.control, m, n);
    var sent := OfControl(Outbound(a));
    assert sent + a.core.control[..m] + b.core.control[..n] == sent + (a.core.control[..m] + b.core.control[..n]);
  }

  lemma NothingTaken(w: World)
    ensures ControlTaken(w, 0, w)
  {
    assert OfControl(Outbound(w)) + [] == OfControl(Outbound(w));
  }

  lemma {:induction false} ControlLeaves(w: World, steps: seq<Step>) returns (end: World)
    requires Feasible(w, steps) && Looks(steps) <= |w.core.control|
    ensures end == Run(w, steps) && ControlTaken(w, Looks(steps), end)
    decreases |steps|
  {
    if steps == [] {
      NothingTaken(w);
      end := w;
    } else {
      var next := ControlStep(w, steps[0]);
      end := ControlLeaves(next, steps[1..]);
      TakenTwice(w, Look(steps[0]), next, Looks(steps[1..]), end);
    }
  }

  lemma {:induction false} ControlHoldsStreams(w: World, steps: seq<Step>)
    requires Feasible(w, steps) && Looks(steps) <= |w.core.control|
    ensures Pops(w, steps) == []
    decreases |steps|
  {
    if steps != [] {
      var next := ControlStep(w, steps[0]);
      ControlHoldsStreams(next, steps[1..]);
    }
  }

  /** While control messages wait, each look for work takes the first of them, and no
      stream gets a message out beyond the one already being fetched, however many
      streams are ready. */
  lemma ControlFirst(w: World, steps: seq<Step>)
    requires Feasible(w, steps) && Looks(steps) <= |w.core.control|
    ensures OfControl(Outbound(Run(w, steps))) == OfControl(Outbound(w)) + w.core.control[..Looks(steps)]
    ensures |Takes(w, steps)| <= InProgress(w.runner)
  {
    var _ := ControlLeaves(w, steps);
    ControlHoldsStreams(w, steps);
    TakesBounded(w, steps, "");
  }
}
