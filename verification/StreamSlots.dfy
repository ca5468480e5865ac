/** Admission to one peer's stream slots, and who gives a slot back
    (internal/control/protocol_peer.go). */
module StreamSlots {
  import opened Protocol
  import P = PendingRequests
  import Counting

  /** What the goroutine that took a request out of the pending map still has to
      do for it. */
  datatype Duty = NoDuty | MustRelease | MustFinish(verdict: P.Verdict)

  /** Where forwardHTTP and ForwardRequest stand with the first send: after a failed
      one the request is taken out of the map, its slot released, and its
      reservation given back to the tracker. */
  datatype FirstSend = Sending | Sent | SendFailed | Releasing | Removed | GaveBack

  /** A request and its place in the pending map. */
  datatype Entry = Entry(request: P.Request, inMap: bool, duty: Duty, first: FirstSend)

  /** `occupied` is the fill of the streamSlots channel; `admitting` counts
      goroutines that have a slot but no request yet. */
  datatype Peer = Peer(flow: FlowControl, occupied: nat, admitting: nat, entries: seq<Entry>)

  function MaxStreams(peer: Peer): int {
    peer.flow.Normalize().maxConcurrentStreams
  }

  function NewPeer(flow: FlowControl): Peer {
    Peer(flow, 0, 0, [])
  }

  function NewEntry(flow: FlowControl): Entry {
    Entry(P.NewRequest(flow), true, NoDuty, Sending)
  }

  datatype Step =
    | Acquire
    | Admit
    | OnRequest(i: nat, event: P.Step)
    | Take(i: nat, verdict: P.Verdict)
    | Remove(i: nat)
    | Discharge(i: nat)
    | FirstSendReturns(i: nat, ok: bool)
    | FirstSendContinues(i: nat)

  predicate Enabled(peer: Peer, step: Step) {
    match step
    case Acquire => peer.occupied < MaxStreams(peer)
    case Admit => peer.admitting > 0
    case OnRequest(i, event) => i < |peer.entries| && !event.SlotReleased? && P.Enabled(peer.entries[i].request, event)
    case Take(i, _) => i < |peer.entries| && peer.entries[i].inMap
    case Remove(i) => i < |peer.entries| && peer.entries[i].inMap
    case Discharge(i) => i < |peer.entries| && !peer.entries[i].duty.NoDuty?
    case FirstSendReturns(i, _) => i < |peer.entries| && peer.entries[i].first.Sending?
    case FirstSendContinues(i) =>
      i < |peer.entries| && (peer.entries[i].first.SendFailed? || peer.entries[i].first.Releasing?
                             || peer.entries[i].first.Removed?)
  }

  /** releaseStreamSlot: the channel receive, with its empty-channel default. */
  function Drop(occupied: nat): nat {
    if occupied > 0 then occupied - 1 else occupied
  }

  /** An event of one request; a release that releaseOnce lets through frees a slot. */
  function Update(peer: Peer, i: nat, entry: Entry): Peer
    requires i < |peer.entries|
  {
    peer.(entries := peer.entries[i := entry],
          occupied := if entry.request.released && !peer.entries[i].request.released
                      then Drop(peer.occupied) else peer.occupied)
  }

  function Apply(peer: Peer, step: Step): Peer
    requires Enabled(peer, step)
  {
    match step
    case Acquire => peer.(occupied := peer.occupied + 1, admitting := peer.admitting + 1)
    case Admit => peer.(admitting := peer.admitting - 1, entries := peer.entries + [NewEntry(peer.flow)])
    case OnRequest(i, event) =>
      Update(peer, i, peer.entries[i].(request := P.Apply(peer.entries[i].request, event)))
    case Take(i, verdict) => Update(peer, i, peer.entries[i].(inMap := false, duty := MustFinish(verdict)))
    case Remove(i) => Update(peer, i, peer.entries[i].(inMap := false, duty := MustRelease))
    case Discharge(i) => Update(peer, i, Discharged(peer.entries[i]))
    case FirstSendReturns(i, ok) => Update(peer, i, peer.entries[i].(first := if ok then Sent else SendFailed))
    case FirstSendContinues(i) => Update(peer, i, FirstSendContinued(peer.entries[i]))
  }

  function Discharged(entry: Entry): Entry {
    match entry.duty
    case NoDuty => entry
    case MustRelease => entry.(request := P.Apply(entry.request, P.SlotReleased), duty := NoDuty)
    case MustFinish(verdict) => entry.(request := P.BeginFinish(entry.request, verdict), duty := NoDuty)
  }

  /** removePending, which releases the slot if it found the request, and then
      ReleaseRequest. */
  function FirstSendContinued(entry: Entry): Entry {
    match entry.first
    case SendFailed => if entry.inMap then entry.(inMap := false, first := Releasing) else entry.(first := Removed)
    case Releasing => entry.(request := P.Apply(entry.request, P.SlotReleased), first := Removed)
    case Removed => entry.(first := GaveBack)
    case _ => entry
  }

  ghost predicate Feasible(peer: Peer, steps: seq<Step>)
    decreases |steps|
  {
    steps == [] || (Enabled(peer, steps[0]) && Feasible(Apply(peer, steps[0]), steps[1..]))
  }

  ghost function Run(peer: Peer, steps: seq<Step>): Peer
    requires Feasible(peer, steps)
    decreases |steps|
  {
    if steps == [] then peer else Run(Apply(peer, steps[0]), steps[1..])
  }

  // Conservation.

  function Holds(entry: Entry): int {
    if entry.request.released then 0 else 1
  }

  function Holdings(entries: seq<Entry>): seq<int> {
    seq(|entries|, i requires 0 <= i < |entries| => Holds(entries[i]))
  }

  /** Requests admitted whose slot has not been given back. */
  function Unreleased(entries: seq<Entry>): int {
    Counting.Sum(Holdings(entries))
  }

  /** Out of the map with nothing owed, a request has released its slot or has a
      finisher that will. */
  predicate Tidy(entry: Entry) {
    && P.Sound(entry.request)
    && (!entry.inMap && entry.duty.NoDuty? && !entry.first.Releasing? ==>
          entry.request.released || entry.request.completed)
    && (entry.inMap ==> entry.duty.NoDuty? && !entry.first.Releasing?)
  }

  predicate Inv(peer: Peer) {
    && peer.occupied == peer.admitting + Unreleased(peer.entries)
    && peer.occupied <= MaxStreams(peer)
    && (forall i | 0 <= i < |peer.entries| :: Tidy(peer.entries[i]))
  }

  lemma UnreleasedUpdate(entries: seq<Entry>, i: nat, entry: Entry)
    requires i < |entries|
    ensures Unreleased(entries[i := entry]) == Unreleased(entries) - Holds(entries[i]) + Holds(entry)
    ensures Unreleased(entries) >= Holds(entries[i])
  {
    assert Holdings(entries[i := entry]) == Holdings(entries)[i := Holds(entry)];
    Counting.SumUpdate(Holdings(entries), i, Holds(entry));
    Counting.SumAtLeast(Holdings(entries), i);
  }

  lemma UpdateInv(peer: Peer, i: nat, entry: Entry)
    requires Inv(peer) && i < |peer.entries| && Tidy(entry)
    requires peer.entries[i].request.released ==> entry.request.released
    ensures Inv(Update(peer, i, entry))
    ensures entry.request.released && !peer.entries[i].request.released ==> peer.occupied > 0
  {
    UnreleasedUpdate(peer.entries, i, entry);
  }

  lemma ReleasedStays(r: P.Request, event: P.Step)
    requires P.Enabled(r, event)
    ensures r.released ==> P.Apply(r, event).released
    ensures r.completed ==> P.Apply(r, event).completed
  {
  }

  lemma InvOnRequest(peer: Peer, i: nat, event: P.Step)
    requires Inv(peer) && Enabled(peer, OnRequest(i, event))
    ensures Inv(Apply(peer, OnRequest(i, event)))
  {
    var r := peer.entries[i].request;
    ReleasedStays(r, event);
    P.StagedStep(r, event);
    P.InOrderStep(r, event);
    UpdateInv(peer, i, peer.entries[i].(request := P.Apply(r, event)));
  }

  lemma InvDischarge(peer: Peer, i: nat)
    requires Inv(peer) && Enabled(peer, Discharge(i))
    ensures Inv(Apply(peer, Discharge(i)))
  {
    var entry := peer.entries[i];
    if entry.duty.MustFinish? {
      P.StagedStep(entry.request, P.FinishCalled(entry.duty.verdict));
    } else {
      P.StagedStep(entry.request, P.SlotReleased);
    }
    UpdateInv(peer, i, Discharged(entry));
  }

  lemma InvContinue(peer: Peer, i: nat)
    requires Inv(peer) && Enabled(peer, FirstSendContinues(i))
    ensures Inv(Apply(peer, FirstSendContinues(i)))
  {
    P.StagedStep(peer.entries[i].request, P.SlotReleased);
    UpdateInv(peer, i, FirstSendContinued(peer.entries[i]));
  }

  lemma InvAdmit(peer: Peer)
    requires Inv(peer) && Enabled(peer, Admit)
    ensures Inv(Apply(peer, Admit))
  {
    assert Holdings(peer.entries + [NewEntry(peer.flow)]) == Holdings(peer.entries) + [1];
    Counting.SumAppend(Holdings(peer.entries), 1);
  }

  lemma InvStep(peer: Peer, step: Step)
    requires Inv(peer) && Enabled(peer, step)
    ensures Inv(Apply(peer, step))
  {
    match step {
      case Acquire =>
      case Admit => InvAdmit(peer);
      case OnRequest(i, event) => InvOnRequest(peer, i, event);
      case Discharge(i) => InvDischarge(peer, i);
      case Take(i, verdict) =>
        UpdateInv(peer, i, peer.entries[i].(inMap := false, duty := MustFinish(verdict)));
      case Remove(i) =>
        UpdateInv(peer, i, peer.entries[i].(inMap := false, duty := MustRelease));
      case FirstSendReturns(i, ok) =>
        UpdateInv(peer, i, peer.entries[i].(first := if ok then Sent else SendFailed));
      case FirstSendContinues(i) => InvContinue(peer, i);
    }
  }

  lemma {:induction false} InvRun(peer: Peer, steps: seq<Step>)
    requires Inv(peer) && Feasible(peer, steps)
    ensures Inv(Run(peer, steps))
    decreases |steps|
  {
    if steps != [] {
      InvStep(peer, steps[0]);
      InvRun(Apply(peer, steps[0]), steps[1..]);
    }
  }

  /** A request nobody is working on any more. */
  predicate AtRest(entry: Entry) {
    && !entry.inMap && entry.duty.NoDuty? && !entry.first.Releasing?
    && (entry.request.finisher.NoFinisher? || entry.request.finisher.stage.Over?)
  }

  lemma {:induction false} FlowKept(peer: Peer, steps: seq<Step>)
    requires Feasible(peer, steps)
    ensures Run(peer, steps).flow == peer.flow
    decreases |steps|
  {
    if steps != [] {
      FlowKept(Apply(peer, steps[0]), steps[1..]);
    }
  }

  /** In every reachable state the occupied slots are those of goroutines being
      admitted plus those of requests not yet released, never more than the
      limit, and once every request has come to rest and nobody is being admitted
      all slots are free again. */
  lemma SlotsConserved(flow: FlowControl, steps: seq<Step>)
    requires Feasible(NewPeer(flow), steps)
    ensures var peer := Run(NewPeer(flow), steps);
      && peer.occupied == peer.admitting + Unreleased(peer.entries)
      && peer.occupied <= (if flow.maxConcurrentStreams > 0 then flow.maxConcurrentStreams else 100)
      && (peer.occupied < (if flow.maxConcurrentStreams > 0 then flow.maxConcurrentStreams else 100) <==>
            Enabled(peer, Acquire))
      && (peer.admitting == 0 && (forall i | 0 <= i < |peer.entries| :: AtRest(peer.entries[i])) ==> peer.occupied == 0)
  {
    FlowKept(NewPeer(flow), steps);
    InvRun(NewPeer(flow), steps);
    var peer := Run(NewPeer(flow), steps);
    if forall i | 0 <= i < |peer.entries| :: AtRest(peer.entries[i]) {
      forall i | 0 <= i < |peer.entries| ensures Holdings(peer.entries)[i] == 0 {
        assert AtRest(peer.entries[i]) && Tidy(peer.entries[i]);
      }
      Counting.SumZero(Holdings(peer.entries));
    }
  }

  /** Two callers race to give one slot back (finish and removePending). The one
      releaseOnce lets through always finds a token in the channel, so the
      default branch of releaseStreamSlot is never taken. */
  lemma ReleaseFindsToken(peer: Peer, step: Step, i: nat)
    requires Inv(peer) && Enabled(peer, step) && i < |peer.entries|
    requires !peer.entries[i].request.released && Apply(peer, step).entries[i].request.released
    ensures peer.occupied > 0 && Apply(peer, step).occupied == peer.occupied - 1
  {
    UnreleasedUpdate(peer.entries, i, peer.entries[i]);
  }

  // Settling reservations.

  /** How often the reservation of a request has been settled with the tracker:
      once by ForwardRequest if the first send failed, once per report of finish. */
  function Settlements(entry: Entry): nat {
    (if entry.first.GaveBack? then 1 else 0) + |entry.request.reports|
  }

  ghost predicate SettlesOnceOn(peer: Peer, i: nat, more: seq<Step>) {
    Feasible(peer, more) && i < |Run(peer, more).entries| ==> Settlements(Run(peer, more).entries[i]) <= 1
  }

  lemma SentStep(peer: Peer, step: Step, i: nat)
    requires Enabled(peer, step) && i < |peer.entries| && peer.entries[i].first.Sent?
    ensures i < |Apply(peer, step).entries| && Apply(peer, step).entries[i].first.Sent?
  {
  }

  lemma {:induction false} SentStays(peer: Peer, steps: seq<Step>, i: nat)
    requires Feasible(peer, steps) && i < |peer.entries| && peer.entries[i].first.Sent?
    ensures i < |Run(peer, steps).entries| && Run(peer, steps).entries[i].first.Sent?
    decreases |steps|
  {
    if steps != [] {
      SentStep(peer, steps[0], i);
      SentStays(Apply(peer, steps[0]), steps[1..], i);
    }
  }

  /** A run, one step longer at its front. */
  lemma Prepend(peer: Peer, step: Step, rest: seq<Step>) returns (steps: seq<Step>)
    requires Enabled(peer, step) && Feasible(Apply(peer, step), rest)
    ensures steps == [step] + rest && Feasible(peer, steps) && Run(peer, steps) == Run(Apply(peer, step), rest)
  {
    steps := [step] + rest;
    assert steps[1..] == rest;
  }

  lemma EndingEvent(peer: Peer, i: nat) returns (step: Step)
    requires Inv(peer) && i < |peer.entries| && peer.entries[i].first.GaveBack?
    requires peer.entries[i].request.finisher.Finishing? && !peer.entries[i].request.finisher.stage.Over?
    ensures Enabled(peer, step)
    ensures var peer' := Apply(peer, step);
      && i < |peer'.entries| && peer'.entries[i].first.GaveBack? && peer'.entries[i].request.finisher.Finishing?
      && P.Remaining(peer'.entries[i].request) < P.Remaining(peer.entries[i].request)
  {
    P.EndingDescends(peer.entries[i].request);
    step := OnRequest(i, P.EndingStep(peer.entries[i].request));
  }

  /** A given-back request whose finish has begun is reported in the end. */
  lemma {:induction false} ReportsToo(peer: Peer, i: nat) returns (steps: seq<Step>)
    requires Inv(peer) && i < |peer.entries| && peer.entries[i].first.GaveBack?
    requires peer.entries[i].request.finisher.Finishing?
    ensures Feasible(peer, steps) && i < |Run(peer, steps).entries| && Settlements(Run(peer, steps).entries[i]) == 2
    decreases P.Remaining(peer.entries[i].request)
  {
    if peer.entries[i].request.finisher.stage.Over? {
      assert Tidy(peer.entries[i]);
      steps := [];
    } else {
      var step := EndingEvent(peer, i);
      InvStep(peer, step);
      steps := ReportsToo(Apply(peer, step), i);
      steps := Prepend(peer, step, steps);
    }
  }

  /** The idle timer, still armed, finishes a request that was given back. */
  lemma FinishesGivenBack(peer: Peer, i: nat) returns (steps: seq<Step>)
    requires Inv(peer) && i < |peer.entries| && peer.entries[i].first.GaveBack?
    ensures Feasible(peer, steps) && i < |Run(peer, steps).entries| && Settlements(Run(peer, steps).entries[i]) == 2
  {
    assert Tidy(peer.entries[i]);
    if peer.entries[i].request.completed {
      steps := ReportsToo(peer, i);
    } else {
      var fired := OnRequest(i, P.FinishCalled(P.Broken(P.IdleTimeout)));
      InvStep(peer, fired);
      steps := ReportsToo(Apply(peer, fired), i);
      steps := Prepend(peer, fired, steps);
    }
  }

  function Pending(first: FirstSend): nat {
    match first
    case Sending => 4 case SendFailed => 3 case Releasing => 2 case Removed => 1
    case _ => 0
  }

  /** As long as the first send has not succeeded, two settlements are ahead. */
  lemma {:induction false} SettlesTwice(peer: Peer, i: nat) returns (steps: seq<Step>)
    requires Inv(peer) && i < |peer.entries| && !peer.entries[i].first.Sent?
    ensures Feasible(peer, steps) && i < |Run(peer, steps).entries| && Settlements(Run(peer, steps).entries[i]) == 2
    decreases Pending(peer.entries[i].first)
  {
    if peer.entries[i].first.GaveBack? {
      steps := FinishesGivenBack(peer, i);
    } else {
      var step := if peer.entries[i].first.Sending? then FirstSendReturns(i, false) else FirstSendContinues(i);
      InvStep(peer, step);
      steps := SettlesTwice(Apply(peer, step), i);
      steps := Prepend(peer, step, steps);
    }
  }

  /** In every reachable state, a request's reservation is settled at most once
      whatever happens next exactly when its first send has succeeded: until then
      the send can fail and the reservation be given back, while the idle timer,
      armed since the request was made, finishes and reports it as well. */
  lemma SettledOnceExactly(flow: FlowControl, steps: seq<Step>, i: nat)
    requires Feasible(NewPeer(flow), steps) && i < |Run(NewPeer(flow), steps).entries|
    ensures var peer := Run(NewPeer(flow), steps);
      (forall more: seq<Step> :: SettlesOnceOn(peer, i, more)) <==> peer.entries[i].first.Sent?
  {
    InvRun(NewPeer(flow), steps);
    var peer := Run(NewPeer(flow), steps);
    if peer.entries[i].first.Sent? {
      forall more: seq<Step> ensures SettlesOnceOn(peer, i, more) {
        SentSettlesOnce(peer, i, more);
      }
    } else {
      var more := SettlesTwice(peer, i);
      assert !SettlesOnceOn(peer, i, more);
    }
  }

  lemma SentSettlesOnce(peer: Peer, i: nat, more: seq<Step>)
    requires Inv(peer) && i < |peer.entries| && peer.entries[i].first.Sent?
    ensures SettlesOnceOn(peer, i, more)
  {
    if Feasible(peer, more) {
      InvRun(peer, more);
      SentStays(peer, more, i);
      assert Tidy(Run(peer, more).entries[i]);
    }
  }

  /** The only request of a peer, admitted and no more. */
  lemma AdmittedOne(flow: FlowControl) returns (peer: Peer)
    ensures Feasible(NewPeer(flow), [Acquire, Admit]) && peer == Run(NewPeer(flow), [Acquire, Admit])
    ensures Inv(peer) && peer.entries == [NewEntry(flow)]
  {
    var steps := [Acquire, Admit];
    assert steps[1..] == [Admit] && [Admit][1..] == [];
    InvRun(NewPeer(flow), steps);
    peer := Run(NewPeer(flow), steps);
  }

  /** One entry, not finished, at this place of its first send. */
  ghost predicate Single(peer: Peer, first: FirstSend) {
    && Inv(peer) && |peer.entries| == 1 && peer.entries[0].first == first && !peer.entries[0].request.completed
    && (first.Sending? || first.SendFailed? ==> peer.entries[0].inMap)
  }

  lemma SingleFails(peer: Peer) returns (peer': Peer)
    requires Single(peer, Sending)
    ensures Enabled(peer, FirstSendReturns(0, false)) && peer' == Apply(peer, FirstSendReturns(0, false))
    ensures Single(peer', SendFailed)
  {
    InvStep(peer, FirstSendReturns(0, false));
    peer' := Apply(peer, FirstSendReturns(0, false));
  }

  lemma SingleContinues(peer: Peer, first: FirstSend, next: FirstSend) returns (peer': Peer)
    requires Single(peer, first)
    requires (first, next) in {(SendFailed, Releasing), (Releasing, Removed), (Removed, GaveBack)}
    ensures Enabled(peer, FirstSendContinues(0)) && peer' == Apply(peer, FirstSendContinues(0))
    ensures Single(peer', next)
  {
    InvStep(peer, FirstSendContinues(0));
    peer' := Apply(peer, FirstSendContinues(0));
  }

  /** The first send fails, the request is removed and its reservation given back. */
  lemma GivenBack(peer: Peer) returns (peer': Peer)
    requires Single(peer, Sending)
    ensures var steps := [FirstSendReturns(0, false), FirstSendContinues(0), FirstSendContinues(0), FirstSendContinues(0)];
      Feasible(peer, steps) && peer' == Run(peer, steps)
    ensures Single(peer', GaveBack)
  {
    var failed := SingleFails(peer);
    var releasing := SingleContinues(failed, SendFailed, Releasing);
    var removed := SingleContinues(releasing, Releasing, Removed);
    peer' := SingleContinues(removed, Removed, GaveBack);
    var steps := Prepend(removed, FirstSendContinues(0), []);
    steps := Prepend(releasing, FirstSendContinues(0), steps);
    steps := Prepend(failed, FirstSendContinues(0), steps);
    steps := Prepend(peer, FirstSendReturns(0, false), steps);
  }

  lemma {:induction false} RunOn(peer: Peer, a: seq<Step>, b: seq<Step>)
    requires Feasible(peer, a) && Feasible(Run(peer, a), b)
    ensures Feasible(peer, a + b) && Run(peer, a + b) == Run(Run(peer, a), b)
    decreases |a|
  {
    if a == [] {
      assert a + b == b;
    } else {
      assert (a + b)[1..] == a[1..] + b;
      RunOn(Apply(peer, a[0]), a[1..], b);
    }
  }

  /** A run from a new peer: a request is admitted, its first send fails, it is
      removed and its reservation given back; then its idle timer fires and the same
      reservation is settled a second time. */
  lemma FailedSendSettlesTwice(flow: FlowControl) returns (steps: seq<Step>, rest: seq<Step>)
    ensures steps == [Acquire, Admit]
                     + ([FirstSendReturns(0, false), FirstSendContinues(0), FirstSendContinues(0), FirstSendContinues(0)]
                        + ([OnRequest(0, P.FinishCalled(P.Broken(P.IdleTimeout)))] + rest))
    ensures Feasible(NewPeer(flow), steps) && 0 < |Run(NewPeer(flow), steps).entries|
    ensures Settlements(Run(NewPeer(flow), steps).entries[0]) == 2
  {
    var admitted := AdmittedOne(flow);
    var given := GivenBack(admitted);
    var fired := OnRequest(0, P.FinishCalled(P.Broken(P.IdleTimeout)));
    InvStep(given, fired);
    rest := ReportsToo(Apply(given, fired), 0);
    var last := Prepend(given, fired, rest);
    var fails := [FirstSendReturns(0, false), FirstSendContinues(0), FirstSendContinues(0), FirstSendContinues(0)];
    RunOn(admitted, fails, last);
    RunOn(NewPeer(flow), [Acquire, Admit], fails + last);
    steps := [Acquire, Admit] + (fails + last);
  }
}
