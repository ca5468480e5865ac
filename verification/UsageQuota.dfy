/** Request quotas over whole runs of the usage tracker, across billing periods
    (internal/usage/tracker.go). */
module UsageQuota {
  import opened Text
  import opened UsageModel
  import Counting

  datatype Outcome = Open | Released | Completed(bytesIn: nat, bytesOut: nat)

  /** A granted reservation, when it was granted and what became of it. */
  datatype Entry = Entry(reservation: RequestReservation, at: Time, outcome: Outcome)

  /** The tracker and every reservation it has granted. */
  datatype Ledger = Ledger(tracker: Tracker, entries: seq<Entry>)

  datatype Step =
    | Reserve(userID: string, estimate: int, now: Time)
    | Release(i: nat)
    | Complete(i: nat, bytesIn: int, bytesOut: int, now: Time)
    | ReserveSlot(userID: string)
    | ReleaseSlot(slot: TunnelReservation)
    | Confirm(slot: TunnelReservation, tunnelID: string, now: Time)
    | Restore(userID: string, tunnelID: string, now: Time)
    | Close(userID: string, tunnelID: string, now: Time)
    | FlushBegins(now: Time)
    | FlushFails(items: map<string, Record>)

  predicate InRange(l: Ledger, step: Step) {
    && (step.Release? || step.Complete? ==> step.i < |l.entries|)
    && (step.Reserve? ==> IsCalendar(step.now.day))
  }

  /** The step settles a reservation that is settled already. */
  predicate Repeats(l: Ledger, step: Step)
    requires InRange(l, step)
  {
    (step.Release? || step.Complete?) && !l.entries[step.i].outcome.Open?
  }

  /** A reservation is settled at most once: the rule the tracker relies on. */
  predicate Enabled(l: Ledger, step: Step) {
    InRange(l, step) && !Repeats(l, step)
  }

  function Positive(n: int): nat {
    if n < 0 then 0 else n
  }

  function Apply(l: Ledger, step: Step): Ledger
    requires InRange(l, step)
  {
    match step
    case Reserve(userID, estimate, now) =>
      var (t, result) := ReserveRequest(l.tracker, userID, estimate, now);
      if result.Granted? && result.value.acquired
      then Ledger(t, l.entries + [Entry(result.value, now, Open)])
      else l.(tracker := t)
    case Release(i) =>
      Ledger(ReleaseRequest(l.tracker, l.entries[i].reservation), Settle(l.entries, i, Released))
    case Complete(i, bytesIn, bytesOut, now) =>
      Ledger(CompleteRequest(l.tracker, l.entries[i].reservation, bytesIn, bytesOut, now),
             Settle(l.entries, i, Completed(Positive(bytesIn), Positive(bytesOut))))
    case ReserveSlot(userID) => l.(tracker := ReserveTunnel(l.tracker, userID).0)
    case ReleaseSlot(slot) => l.(tracker := ReleaseTunnelReservation(l.tracker, slot))
    case Confirm(slot, tunnelID, now) => l.(tracker := ConfirmTunnel(l.tracker, slot, tunnelID, now))
    case Restore(userID, tunnelID, now) => l.(tracker := RestoreTunnel(l.tracker, userID, tunnelID, now))
    case Close(userID, tunnelID, now) => l.(tracker := TrackTunnelClosed(l.tracker, userID, tunnelID, now))
    case FlushBegins(now) => l.(tracker := BeginFlush(l.tracker, now).0)
    case FlushFails(items) => l.(tracker := FailFlush(l.tracker, items))
  }

  function Settle(entries: seq<Entry>, i: nat, outcome: Outcome): seq<Entry>
    requires i < |entries|
  {
    entries[i := entries[i].(outcome := outcome)]
  }

  ghost predicate Feasible(l: Ledger, steps: seq<Step>)
    decreases |steps|
  {
    steps == [] || (Enabled(l, steps[0]) && Feasible(Apply(l, steps[0]), steps[1..]))
  }

  ghost function Run(l: Ledger, steps: seq<Step>): Ledger
    requires Feasible(l, steps)
    decreases |steps|
  {
    if steps == [] then l else Run(Apply(l, steps[0]), steps[1..])
  }

  function NewLedger(period: Period, limits: Limits): Ledger {
    Ledger(UsageModel.NewTracker(period, limits), [])
  }

  // What the reservations add up to.

  /** Requests and estimated bytes held; requests, bytes in and bytes out counted;
      and bytes in beyond the estimate. */
  datatype Measure = Held | HeldBytes | Counted | UsedIn | UsedOut | Overrun

  function Weight(m: Measure, entry: Entry): int {
    match m
    case Held => if entry.outcome.Open? then 1 else 0
    case HeldBytes => if entry.outcome.Open? then entry.reservation.estimatedBytesIn else 0
    case Counted => if entry.outcome.Completed? then 1 else 0
    case UsedIn => if entry.outcome.Completed? then entry.outcome.bytesIn else 0
    case UsedOut => if entry.outcome.Completed? then entry.outcome.bytesOut else 0
    case Overrun =>
      if entry.outcome.Completed? then Positive(entry.outcome.bytesIn - entry.reservation.estimatedBytesIn) else 0
  }

  function Weights(m: Measure, entries: seq<Entry>, key: string): seq<int> {
    seq(|entries|, i requires 0 <= i < |entries| =>
      if entries[i].reservation.bucketKey == key then Weight(m, entries[i]) else 0)
  }

  /** The total over the reservations of one bucket. */
  function Total(m: Measure, entries: seq<Entry>, key: string): int {
    Counting.Sum(Weights(m, entries, key))
  }

  /** Of this user, and granted in the same billing period. */
  predicate InPeriod(entry: Entry, period: Period, userID: string, now: Time) {
    entry.reservation.userID == userID && SamePeriod(period, entry.at, now)
  }

  function PeriodWeights(m: Measure, entries: seq<Entry>, period: Period, userID: string, now: Time): seq<int> {
    seq(|entries|, i requires 0 <= i < |entries| =>
      if InPeriod(entries[i], period, userID, now) then Weight(m, entries[i]) else 0)
  }

  /** The total over what a user reserved in one billing period. */
  function PeriodTotal(m: Measure, entries: seq<Entry>, period: Period, userID: string, now: Time): int {
    Counting.Sum(PeriodWeights(m, entries, period, userID, now))
  }

  predicate EntryOk(t: Tracker, entry: Entry) {
    var r := entry.reservation;
    && r.acquired && r.userID != "" && r.estimatedBytesIn >= 0 && r.bucketKey in t.buckets
    && IsCalendar(entry.at.day) && r.bucketKey == BucketKey(r.userID, t.period, PeriodStart(t.period, entry.at))
  }

  /** One bucket's books are those of its reservations. */
  predicate BooksOk(bucket: Bucket, entries: seq<Entry>, key: string) {
    && bucket.reservedRequests == Total(Held, entries, key)
    && bucket.reservedBytesIn == Total(HeldBytes, entries, key)
    && bucket.record.requestCount == Total(Counted, entries, key)
    && bucket.record.bytesIn == Total(UsedIn, entries, key)
    && bucket.record.bytesOut == Total(UsedOut, entries, key)
  }

  /** What is used plus what is held stays within the caps. */
  predicate CapsOk(limits: Limits, entries: seq<Entry>, key: string) {
    && (limits.maxRequests > 0 ==> Total(Counted, entries, key) + Total(Held, entries, key) <= limits.maxRequests)
    && (limits.maxBytesIn > 0 ==>
          Total(UsedIn, entries, key) + Total(HeldBytes, entries, key)
          <= limits.maxBytesIn + Total(Overrun, entries, key))
  }

  predicate BucketOk(l: Ledger, key: string) {
    key in l.tracker.buckets ==>
      BooksOk(l.tracker.buckets[key], l.entries, key) && CapsOk(l.tracker.limits, l.entries, key)
  }

  ghost predicate Inv(l: Ledger) {
    && (forall i | 0 <= i < |l.entries| :: EntryOk(l.tracker, l.entries[i]))
    && (forall key :: BucketOk(l, key))
  }

  function Share(m: Measure, entry: Entry, key: string): int {
    if entry.reservation.bucketKey == key then Weight(m, entry) else 0
  }

  lemma TotalAppend(m: Measure, entries: seq<Entry>, entry: Entry, key: string)
    ensures Total(m, entries + [entry], key) == Total(m, entries, key) + Share(m, entry, key)
  {
    assert Weights(m, entries + [entry], key) == Weights(m, entries, key) + [Share(m, entry, key)];
    Counting.SumAppend(Weights(m, entries, key), Share(m, entry, key));
  }

  lemma TotalSettle(m: Measure, entries: seq<Entry>, i: nat, outcome: Outcome, key: string)
    requires i < |entries|
    ensures Total(m, Settle(entries, i, outcome), key) ==
            Total(m, entries, key) - Share(m, entries[i], key) + Share(m, entries[i].(outcome := outcome), key)
  {
    var share := Share(m, entries[i].(outcome := outcome), key);
    assert Weights(m, Settle(entries, i, outcome), key) == Weights(m, entries, key)[i := share];
    Counting.SumUpdate(Weights(m, entries, key), i, share);
  }

  /** A reservation's part is in the total. */
  lemma TotalAtLeast(m: Measure, t: Tracker, entries: seq<Entry>, i: nat, key: string)
    requires i < |entries| && forall j | 0 <= j < |entries| :: EntryOk(t, entries[j])
    ensures Total(m, entries, key) >= Share(m, entries[i], key)
  {
    Counting.SumAtLeast(Weights(m, entries, key), i);
  }

  lemma TotalNatural(m: Measure, t: Tracker, entries: seq<Entry>, key: string)
    requires forall j | 0 <= j < |entries| :: EntryOk(t, entries[j])
    ensures Total(m, entries, key) >= 0
  {
    Counting.SumNonNegative(Weights(m, entries, key));
  }

  lemma NothingTotalled(m: Measure, t: Tracker, entries: seq<Entry>, key: string)
    requires key !in t.buckets && forall j | 0 <= j < |entries| :: EntryOk(t, entries[j])
    ensures Total(m, entries, key) == 0
  {
    Counting.SumZero(Weights(m, entries, key));
  }

  /** The buckets agree on everything quotas are about; new ones are empty. */
  predicate SameCounters(b: Bucket, b': Bucket) {
    && b'.reservedRequests == b.reservedRequests && b'.reservedBytesIn == b.reservedBytesIn
    && b'.record.requestCount == b.record.requestCount
    && b'.record.bytesIn == b.record.bytesIn && b'.record.bytesOut == b.record.bytesOut
  }

  predicate EmptyCounters(b: Bucket) {
    && b.reservedRequests == 0 && b.reservedBytesIn == 0
    && b.record.requestCount == 0 && b.record.bytesIn == 0 && b.record.bytesOut == 0
  }

  ghost predicate SameQuota(t: Tracker, t': Tracker) {
    && t'.limits == t.limits && t'.period == t.period
    && t.buckets.Keys <= t'.buckets.Keys
    && (forall key <- t'.buckets ::
          if key in t.buckets then SameCounters(t.buckets[key], t'.buckets[key]) else EmptyCounters(t'.buckets[key]))
  }

  lemma CurrentSame(t: Tracker, userID: string, now: Time)
    ensures SameQuota(t, CurrentBucket(t, userID, now).0)
  {
  }

  lemma TouchSame(t: Tracker, userID: string, now: Time)
    ensures SameQuota(t, TouchBucket(t, userID, now))
  {
  }

  /** A bucket without reservations has empty books, within every cap. */
  lemma EmptyOk(t: Tracker, entries: seq<Entry>, key: string, bucket: Bucket)
    requires key !in t.buckets && EmptyCounters(bucket) && forall j | 0 <= j < |entries| :: EntryOk(t, entries[j])
    ensures BooksOk(bucket, entries, key) && CapsOk(t.limits, entries, key)
  {
    NothingTotalled(Held, t, entries, key);
    NothingTotalled(HeldBytes, t, entries, key);
    NothingTotalled(Counted, t, entries, key);
    NothingTotalled(UsedIn, t, entries, key);
    NothingTotalled(UsedOut, t, entries, key);
    NothingTotalled(Overrun, t, entries, key);
  }

  lemma SameQuotaKeeps(l: Ledger, t: Tracker)
    requires Inv(l) && SameQuota(l.tracker, t)
    ensures Inv(l.(tracker := t))
  {
    forall i | 0 <= i < |l.entries| ensures EntryOk(t, l.entries[i]) {
      assert EntryOk(l.tracker, l.entries[i]);
    }
    forall key ensures BucketOk(l.(tracker := t), key) {
      assert BucketOk(l, key);
      if key !in l.tracker.buckets && key in t.buckets {
        EmptyOk(l.tracker, l.entries, key, t.buckets[key]);
      }
    }
  }

  lemma ConfirmSame(t: Tracker, slot: TunnelReservation, tunnelID: string, now: Time)
    ensures SameQuota(t, ConfirmTunnel(t, slot, tunnelID, now))
  {
    var t' := Unreserve(t, slot.userID);
    TouchSame(t'.(activeTunnels := t'.activeTunnels[slot.userID := Active(t', slot.userID) + {tunnelID}]), slot.userID, now);
  }

  lemma RestoreSame(t: Tracker, rawUserID: string, tunnelID: string, now: Time)
    ensures SameQuota(t, RestoreTunnel(t, rawUserID, tunnelID, now))
  {
    var userID := TrimSpace(rawUserID);
    TouchSame(t.(activeTunnels := t.activeTunnels[userID := Active(t, userID) + {tunnelID}]), userID, now);
  }

  lemma CloseSame(t: Tracker, rawUserID: string, tunnelID: string, now: Time)
    ensures SameQuota(t, TrackTunnelClosed(t, rawUserID, tunnelID, now))
  {
    var userID := TrimSpace(rawUserID);
    var left := Active(t, userID) - {tunnelID};
    TouchSame(t, userID, now);
    TouchSame(t.(activeTunnels := t.activeTunnels - {userID}), userID, now);
    TouchSame(t.(activeTunnels := t.activeTunnels[userID := left]), userID, now);
  }

  lemma FlushSame(t: Tracker, now: Time, items: map<string, Record>)
    ensures SameQuota(t, BeginFlush(t, now).0) && SameQuota(t, FailFlush(t, items))
  {
  }

  /** Tunnel bookkeeping and flushing leave every counter and reservation alone. */
  lemma OtherSteps(l: Ledger, step: Step)
    requires Inv(l) && Enabled(l, step) && !step.Reserve? && !step.Release? && !step.Complete?
    ensures Inv(Apply(l, step))
  {
    var t := l.tracker;
    match step {
      case ReserveSlot(userID) =>
      case ReleaseSlot(slot) =>
      case Confirm(slot, tunnelID, now) => ConfirmSame(t, slot, tunnelID, now);
      case Restore(userID, tunnelID, now) => RestoreSame(t, userID, tunnelID, now);
      case Close(userID, tunnelID, now) => CloseSame(t, userID, tunnelID, now);
      case FlushBegins(now) => FlushSame(t, now, map[]);
      case FlushFails(items) => FlushSame(t, Time(Day(0, 0, 0), 0), items);
    }
    SameQuotaKeeps(l, Apply(l, step).tracker);
  }

  lemma ReserveInv(l: Ledger, userID: string, estimate: int, now: Time)
    requires Inv(l) && IsCalendar(now.day)
    ensures Inv(Apply(l, Reserve(userID, estimate, now)))
  {
    var trimmed := TrimSpace(userID);
    if trimmed != "" {
      var (t, key) := CurrentBucket(l.tracker, trimmed, now);
      CurrentSame(l.tracker, trimmed, now);
      SameQuotaKeeps(l, t);
      HoldInv(l.(tracker := t), trimmed, key, Positive(estimate), now);
    }
  }

  lemma EntriesStay(t: Tracker, t': Tracker, entries: seq<Entry>)
    requires t'.period == t.period && t.buckets.Keys <= t'.buckets.Keys
    requires forall i | 0 <= i < |entries| :: EntryOk(t, entries[i])
    ensures forall i | 0 <= i < |entries| :: EntryOk(t', entries[i])
  {
    forall i | 0 <= i < |entries| ensures EntryOk(t', entries[i]) {
      assert EntryOk(t, entries[i]);
    }
  }

  lemma BooksUntouched(bucket: Bucket, limits: Limits, entries: seq<Entry>, entries': seq<Entry>, key: string)
    requires BooksOk(bucket, entries, key) && CapsOk(limits, entries, key)
    requires forall m: Measure :: Total(m, entries', key) == Total(m, entries, key)
    ensures BooksOk(bucket, entries', key) && CapsOk(limits, entries', key)
  {
  }

  lemma BooksHold(bucket: Bucket, limits: Limits, entries: seq<Entry>, entry: Entry, key: string)
    requires BooksOk(bucket, entries, key) && CapsOk(limits, entries, key) && Total(Overrun, entries, key) >= 0
    requires entry.reservation.bucketKey == key && entry.outcome.Open?
    requires limits.maxRequests > 0 ==> bucket.record.requestCount + bucket.reservedRequests + 1 <= limits.maxRequests
    requires limits.maxBytesIn > 0 ==>
               bucket.record.bytesIn + bucket.reservedBytesIn + entry.reservation.estimatedBytesIn <= limits.maxBytesIn
    ensures var bucket' := bucket.(reservedRequests := bucket.reservedRequests + 1,
                                   reservedBytesIn := bucket.reservedBytesIn + entry.reservation.estimatedBytesIn);
      BooksOk(bucket', entries + [entry], key) && CapsOk(limits, entries + [entry], key)
  {
    EntryAdds(entries, entry, key);
  }

  /** A grant holds one more request in its bucket, within the caps. */
  lemma HoldInv(l: Ledger, userID: string, key: string, estimate: nat, now: Time)
    requires Inv(l) && key in l.tracker.buckets && userID != "" && IsCalendar(now.day)
    requires key == BucketKey(userID, l.tracker.period, PeriodStart(l.tracker.period, now))
    ensures var (t, result) := HoldRequest(l.tracker, userID, key, estimate);
      Inv(if result.Granted? then Ledger(t, l.entries + [Entry(result.value, now, Open)]) else l.(tracker := t))
  {
    var (t, result) := HoldRequest(l.tracker, userID, key, estimate);
    if result.Granted? {
      var entry := Entry(result.value, now, Open);
      EntriesStay(l.tracker, t, l.entries);
      forall k ensures BucketOk(Ledger(t, l.entries + [entry]), k) {
        assert BucketOk(l, k);
        if k == key {
          TotalNatural(Overrun, l.tracker, l.entries, k);
          BooksHold(l.tracker.buckets[k], t.limits, l.entries, entry, k);
        } else if k in t.buckets {
          EntryAdds(l.entries, entry, k);
          BooksUntouched(t.buckets[k], t.limits, l.entries, l.entries + [entry], k);
        }
      }
    }
  }

  lemma EntryAdds(entries: seq<Entry>, entry: Entry, key: string)
    ensures forall m: Measure :: Total(m, entries + [entry], key) == Total(m, entries, key) + Share(m, entry, key)
  {
    forall m: Measure ensures Total(m, entries + [entry], key) == Total(m, entries, key) + Share(m, entry, key) {
      TotalAppend(m, entries, entry, key);
    }
  }

  lemma EntrySettles(entries: seq<Entry>, i: nat, outcome: Outcome, key: string)
    requires i < |entries|
    ensures forall m: Measure ::
              Total(m, Settle(entries, i, outcome), key) ==
              Total(m, entries, key) - Share(m, entries[i], key) + Share(m, entries[i].(outcome := outcome), key)
  {
    forall m: Measure
      ensures Total(m, Settle(entries, i, outcome), key) ==
              Total(m, entries, key) - Share(m, entries[i], key) + Share(m, entries[i].(outcome := outcome), key)
    {
      TotalSettle(m, entries, i, outcome, key);
    }
  }

  /** Settling an outstanding reservation never meets a clamp: the bucket exists
      and holds at least what the reservation gives back. */
  lemma ClampsNeverFire(l: Ledger, i: nat)
    requires Inv(l) && i < |l.entries| && l.entries[i].outcome.Open?
    ensures var r := l.entries[i].reservation;
      && r.bucketKey in l.tracker.buckets
      && l.tracker.buckets[r.bucketKey].reservedRequests > 0
      && l.tracker.buckets[r.bucketKey].reservedBytesIn >= r.estimatedBytesIn
  {
    var key := l.entries[i].reservation.bucketKey;
    assert BucketOk(l, key) && EntryOk(l.tracker, l.entries[i]);
    TotalAtLeast(Held, l.tracker, l.entries, i, key);
    TotalAtLeast(HeldBytes, l.tracker, l.entries, i, key);
  }

  lemma BooksRelease(bucket: Bucket, limits: Limits, entries: seq<Entry>, i: nat, key: string)
    requires BooksOk(bucket, entries, key) && CapsOk(limits, entries, key)
    requires i < |entries| && entries[i].outcome.Open? && entries[i].reservation.bucketKey == key
    requires entries[i].reservation.estimatedBytesIn >= 0
    ensures var bucket' := bucket.(reservedRequests := bucket.reservedRequests - 1,
                                   reservedBytesIn := bucket.reservedBytesIn - entries[i].reservation.estimatedBytesIn);
      BooksOk(bucket', Settle(entries, i, Released), key) && CapsOk(limits, Settle(entries, i, Released), key)
  {
    EntrySettles(entries, i, Released, key);
  }

  lemma BooksComplete(
    bucket: Bucket, bucket': Bucket, limits: Limits, entries: seq<Entry>,
    i: nat, bytesIn: nat, bytesOut: nat, key: string)
    requires BooksOk(bucket, entries, key) && CapsOk(limits, entries, key)
    requires i < |entries| && entries[i].outcome.Open? && entries[i].reservation.bucketKey == key
    requires bucket'.reservedRequests == bucket.reservedRequests - 1
    requires bucket'.reservedBytesIn == bucket.reservedBytesIn - entries[i].reservation.estimatedBytesIn
    requires bucket'.record.requestCount == bucket.record.requestCount + 1
    requires bucket'.record.bytesIn == bucket.record.bytesIn + bytesIn
    requires bucket'.record.bytesOut == bucket.record.bytesOut + bytesOut
    ensures BooksOk(bucket', Settle(entries, i, Completed(bytesIn, bytesOut)), key)
    ensures CapsOk(limits, Settle(entries, i, Completed(bytesIn, bytesOut)), key)
  {
    EntrySettles(entries, i, Completed(bytesIn, bytesOut), key);
  }

  /** Settling changes the books of one bucket. */
  lemma SettleElsewhere(l: Ledger, t: Tracker, i: nat, outcome: Outcome, k: string)
    requires Inv(l) && i < |l.entries| && k != l.entries[i].reservation.bucketKey
    requires t.limits == l.tracker.limits && (k in t.buckets <==> k in l.tracker.buckets)
    requires k in t.buckets ==> t.buckets[k] == l.tracker.buckets[k]
    ensures BucketOk(Ledger(t, Settle(l.entries, i, outcome)), k)
  {
    assert BucketOk(l, k);
    EntrySettles(l.entries, i, outcome, k);
    if k in t.buckets {
      BooksUntouched(t.buckets[k], t.limits, l.entries, Settle(l.entries, i, outcome), k);
    }
  }

  lemma ReleaseInv(l: Ledger, i: nat)
    requires Inv(l) && i < |l.entries| && l.entries[i].outcome.Open?
    ensures Inv(Apply(l, Release(i)))
  {
    var key, t := l.entries[i].reservation.bucketKey, ReleaseRequest(l.tracker, l.entries[i].reservation);
    assert EntryOk(l.tracker, l.entries[i]) && BucketOk(l, key);
    ClampsNeverFire(l, i);
    EntriesStay(l.tracker, t, l.entries);
    BooksRelease(l.tracker.buckets[key], t.limits, l.entries, i, key);
    forall k ensures BucketOk(Ledger(t, Settle(l.entries, i, Released)), k) {
      if k != key {
        SettleElsewhere(l, t, i, Released, k);
      }
    }
  }

  lemma CompleteInv(l: Ledger, i: nat, bytesIn: int, bytesOut: int, now: Time)
    requires Inv(l) && i < |l.entries| && l.entries[i].outcome.Open?
    ensures Inv(Apply(l, Complete(i, bytesIn, bytesOut, now)))
  {
    var key := l.entries[i].reservation.bucketKey;
    var t := CompleteRequest(l.tracker, l.entries[i].reservation, bytesIn, bytesOut, now);
    var outcome := Completed(Positive(bytesIn), Positive(bytesOut));
    assert EntryOk(l.tracker, l.entries[i]) && BucketOk(l, key);
    ClampsNeverFire(l, i);
    EntriesStay(l.tracker, t, l.entries);
    BooksComplete(l.tracker.buckets[key], t.buckets[key], t.limits, l.entries, i, Positive(bytesIn), Positive(bytesOut), key);
    forall k ensures BucketOk(Ledger(t, Settle(l.entries, i, outcome)), k) {
      if k != key {
        SettleElsewhere(l, t, i, outcome, k);
      }
    }
  }

  lemma InvStep(l: Ledger, step: Step)
    requires Inv(l) && Enabled(l, step)
    ensures Inv(Apply(l, step))
  {
    match step {
      case Reserve(userID, estimate, now) => ReserveInv(l, userID, estimate, now);
      case Release(i) => ReleaseInv(l, i);
      case Complete(i, bytesIn, bytesOut, now) => CompleteInv(l, i, bytesIn, bytesOut, now);
      case _ => OtherSteps(l, step);
    }
  }

  lemma {:induction false} InvRun(l: Ledger, steps: seq<Step>)
    requires Inv(l) && Feasible(l, steps)
    ensures Inv(Run(l, steps))
    decreases |steps|
  {
    if steps != [] {
      InvStep(l, steps[0]);
      InvRun(Apply(l, steps[0]), steps[1..]);
    }
  }

  /** Over every run in which no reservation is settled twice, in every bucket: what
      it holds and counts are the sums over its reservations; counted plus held
      requests never exceed the request cap; and input bytes counted plus held exceed
      the byte cap by no more than requests overran their estimates. */
  lemma QuotasHold(period: Period, limits: Limits, steps: seq<Step>, key: string)
    requires Feasible(NewLedger(period, limits), steps)
    requires key in Run(NewLedger(period, limits), steps).tracker.buckets
    ensures var l := Run(NewLedger(period, limits), steps);
      BooksOk(l.tracker.buckets[key], l.entries, key) && CapsOk(limits, l.entries, key)
  {
    InvRun(NewLedger(period, limits), steps);
    ConfigKept(NewLedger(period, limits), steps);
    assert BucketOk(Run(NewLedger(period, limits), steps), key);
  }

  lemma ConfigStep(l: Ledger, step: Step)
    requires InRange(l, step)
    ensures Apply(l, step).tracker.limits == l.tracker.limits && Apply(l, step).tracker.period == l.tracker.period
  {
    match step {
      case Reserve(userID, estimate, now) =>
      case Release(i) =>
      case Complete(i, bytesIn, bytesOut, now) =>
      case Confirm(slot, tunnelID, now) => ConfirmSame(l.tracker, slot, tunnelID, now);
      case Restore(userID, tunnelID, now) => RestoreSame(l.tracker, userID, tunnelID, now);
      case Close(userID, tunnelID, now) => CloseSame(l.tracker, userID, tunnelID, now);
      case _ =>
    }
  }

  lemma {:induction false} ConfigKept(l: Ledger, steps: seq<Step>)
    requires Feasible(l, steps)
    ensures Run(l, steps).tracker.limits == l.tracker.limits && Run(l, steps).tracker.period == l.tracker.period
    decreases |steps|
  {
    if steps != [] {
      ConfigStep(l, steps[0]);
      ConfigKept(Apply(l, steps[0]), steps[1..]);
    }
  }

  // Per user and billing period.

  /** A user's reservations of one billing period are those of one bucket. */
  lemma PeriodIsBucket(m: Measure, t: Tracker, entries: seq<Entry>, userID: string, now: Time)
    requires IsCalendar(now.day) && forall j | 0 <= j < |entries| :: EntryOk(t, entries[j])
    ensures PeriodTotal(m, entries, t.period, userID, now) ==
            Total(m, entries, BucketKey(userID, t.period, PeriodStart(t.period, now)))
  {
    var key := BucketKey(userID, t.period, PeriodStart(t.period, now));
    forall j | 0 <= j < |entries|
      ensures InPeriod(entries[j], t.period, userID, now) <==> entries[j].reservation.bucketKey == key
    {
      KeyIsPeriod(t, entries[j], userID, now);
    }
    assert PeriodWeights(m, entries, t.period, userID, now) == Weights(m, entries, key);
  }

  lemma KeyIsPeriod(t: Tracker, entry: Entry, userID: string, now: Time)
    requires EntryOk(t, entry) && IsCalendar(now.day)
    ensures InPeriod(entry, t.period, userID, now)
            <==> entry.reservation.bucketKey == BucketKey(userID, t.period, PeriodStart(t.period, now))
  {
    BucketIsPeriod(userID, t.period, entry.at, now);
    if entry.reservation.bucketKey == BucketKey(userID, t.period, PeriodStart(t.period, now)) {
      BucketKeyInjective(entry.reservation.userID, t.period, PeriodStart(t.period, entry.at),
                         userID, t.period, PeriodStart(t.period, now));
    }
  }

  /** The caps as a user feels them: of the requests a user was granted in one
      billing period, those completed and those outstanding never exceed the request
      cap, however late they complete; and their input bytes, actual or estimated,
      exceed the byte cap by no more than they overran their estimates. */
  lemma PeriodCapsHold(period: Period, limits: Limits, steps: seq<Step>, userID: string, now: Time)
    requires Feasible(NewLedger(period, limits), steps) && IsCalendar(now.day)
    ensures var entries := Run(NewLedger(period, limits), steps).entries;
      && (limits.maxRequests > 0 ==>
            PeriodTotal(Counted, entries, period, userID, now) + PeriodTotal(Held, entries, period, userID, now)
            <= limits.maxRequests)
      && (limits.maxBytesIn > 0 ==>
            PeriodTotal(UsedIn, entries, period, userID, now) + PeriodTotal(HeldBytes, entries, period, userID, now)
            <= limits.maxBytesIn + PeriodTotal(Overrun, entries, period, userID, now))
  {
    InvRun(NewLedger(period, limits), steps);
    ConfigKept(NewLedger(period, limits), steps);
    var l := Run(NewLedger(period, limits), steps);
    var key := BucketKey(userID, period, PeriodStart(period, now));
    forall m: Measure ensures PeriodTotal(m, l.entries, period, userID, now) == Total(m, l.entries, key) {
      PeriodIsBucket(m, l.tracker, l.entries, userID, now);
    }
    assert BucketOk(l, key);
    if key !in l.tracker.buckets {
      EmptyOk(l.tracker, l.entries, key, Bucket(Record(userID, period, now.day, 0, 0, 0, 0, now), 0, 0, false));
    }
  }

  /** No request in the period used more than it had estimated. */
  predicate KeptEstimates(entries: seq<Entry>, period: Period, userID: string, now: Time) {
    forall i | 0 <= i < |entries| && InPeriod(entries[i], period, userID, now) && entries[i].outcome.Completed? ::
      entries[i].outcome.bytesIn <= entries[i].reservation.estimatedBytesIn
  }

  lemma KeptEstimatesNoOverrun(entries: seq<Entry>, period: Period, userID: string, now: Time)
    requires KeptEstimates(entries, period, userID, now)
    ensures PeriodTotal(Overrun, entries, period, userID, now) == 0
  {
    Counting.SumZero(PeriodWeights(Overrun, entries, period, userID, now));
  }

  /** What the books say of a user's billing period. */
  datatype Usage = Usage(requests: int, bytesIn: int, bytesOut: int)

  function UsageOf(entries: seq<Entry>, period: Period, userID: string, now: Time): Usage {
    Usage(PeriodTotal(Counted, entries, period, userID, now) + PeriodTotal(Held, entries, period, userID, now),
          PeriodTotal(UsedIn, entries, period, userID, now) + PeriodTotal(HeldBytes, entries, period, userID, now),
          PeriodTotal(UsedOut, entries, period, userID, now))
  }

  /** How a request is refused: with the first limit it would break. */
  predicate Refused(limits: Limits, usage: Usage, estimate: nat, resource: Resource, limit: int, current: int) {
    var tooMany := limits.maxRequests > 0 && usage.requests + 1 > limits.maxRequests;
    var tooMuchIn := limits.maxBytesIn > 0 && usage.bytesIn + estimate > limits.maxBytesIn;
    match resource
    case Requests => tooMany && limit == limits.maxRequests && current == usage.requests + 1
    case BytesIn => !tooMany && tooMuchIn && limit == limits.maxBytesIn && current == usage.bytesIn + estimate
    case BytesOut =>
      && !tooMany && !tooMuchIn && limits.maxBytesOut > 0 && usage.bytesOut >= limits.maxBytesOut
      && limit == limits.maxBytesOut && current == usage.bytesOut
    case ActiveTunnels => false
  }

  predicate Admissible(limits: Limits, usage: Usage, estimate: nat) {
    && (limits.maxRequests > 0 ==> usage.requests < limits.maxRequests)
    && (limits.maxBytesIn > 0 ==> usage.bytesIn + estimate <= limits.maxBytesIn)
    && (limits.maxBytesOut > 0 ==> usage.bytesOut < limits.maxBytesOut)
  }

  /** After any run, a named user's request is admitted exactly when what the user
      was granted in the current billing period, completed or outstanding, leaves
      room under every cap; otherwise the first broken cap is reported. */
  lemma AdmissionExactly(
    period: Period, limits: Limits, steps: seq<Step>, rawUserID: string, rawEstimate: int, now: Time)
    requires Feasible(NewLedger(period, limits), steps) && IsCalendar(now.day) && TrimSpace(rawUserID) != ""
    ensures var l := Run(NewLedger(period, limits), steps);
      var usage := UsageOf(l.entries, period, TrimSpace(rawUserID), now);
      match ReserveRequest(l.tracker, rawUserID, rawEstimate, now).1
      case Granted(r) =>
        && Admissible(limits, usage, Positive(rawEstimate))
        && r.userID == TrimSpace(rawUserID) && r.estimatedBytesIn == Positive(rawEstimate) && r.acquired
      case LimitHit(resource, limit, current) =>
        && !Admissible(limits, usage, Positive(rawEstimate))
        && Refused(limits, usage, Positive(rawEstimate), resource, limit, current)
  {
    InvRun(NewLedger(period, limits), steps);
    ConfigKept(NewLedger(period, limits), steps);
    Admission(Run(NewLedger(period, limits), steps), TrimSpace(rawUserID), Positive(rawEstimate), now);
  }

  lemma Admission(l: Ledger, userID: string, estimate: nat, now: Time)
    requires Inv(l) && IsCalendar(now.day) && userID != ""
    ensures var (t, key) := CurrentBucket(l.tracker, userID, now);
      var usage := UsageOf(l.entries, l.tracker.period, userID, now);
      match HoldRequest(t, userID, key, estimate).1
      case Granted(r) => Admissible(l.tracker.limits, usage, estimate)
      case LimitHit(resource, limit, current) =>
        && !Admissible(l.tracker.limits, usage, estimate)
        && Refused(l.tracker.limits, usage, estimate, resource, limit, current)
  {
    var (t, key) := CurrentBucket(l.tracker, userID, now);
    CurrentSame(l.tracker, userID, now);
    SameQuotaKeeps(l, t);
    forall m: Measure
      ensures PeriodTotal(m, l.entries, l.tracker.period, userID, now) == Total(m, l.entries, key)
    {
      PeriodIsBucket(m, l.tracker, l.entries, userID, now);
    }
    assert BucketOk(l.(tracker := t), key);
  }

  // The rule is needed: runs in which `spare` settlements repeat an earlier one.

  ghost predicate FeasibleWith(l: Ledger, steps: seq<Step>, spare: nat)
    decreases |steps|
  {
    steps == [] ||
    (&& InRange(l, steps[0])
     && (Repeats(l, steps[0]) ==> spare > 0)
     && FeasibleWith(Apply(l, steps[0]), steps[1..], if Repeats(l, steps[0]) then spare - 1 else spare))
  }

  ghost function RunWith(l: Ledger, steps: seq<Step>, spare: nat): Ledger
    requires FeasibleWith(l, steps, spare)
    decreases |steps|
  {
    if steps == [] then l
    else RunWith(Apply(l, steps[0]), steps[1..], if Repeats(l, steps[0]) then spare - 1 else spare)
  }

  lemma {:induction false} WithoutRepeats(l: Ledger, steps: seq<Step>)
    requires FeasibleWith(l, steps, 0)
    ensures Feasible(l, steps) && RunWith(l, steps, 0) == Run(l, steps)
    decreases |steps|
  {
    if steps != [] {
      WithoutRepeats(Apply(l, steps[0]), steps[1..]);
    }
  }

  lemma {:induction false} MoreSpare(l: Ledger, steps: seq<Step>, spare: nat, more: nat)
    requires FeasibleWith(l, steps, spare) && spare <= more
    ensures FeasibleWith(l, steps, more) && RunWith(l, steps, more) == RunWith(l, steps, spare)
    decreases |steps|
  {
    if steps != [] {
      var used := if Repeats(l, steps[0]) then 1 else 0;
      MoreSpare(Apply(l, steps[0]), steps[1..], spare - used, more - used);
    }
  }

  /** A run, one step longer at its front. */
  lemma Prepend(l: Ledger, step: Step, rest: seq<Step>, spare: nat) returns (steps: seq<Step>)
    requires InRange(l, step) && FeasibleWith(Apply(l, step), rest, spare)
    ensures var total := if Repeats(l, step) then spare + 1 else spare;
      FeasibleWith(l, steps, total) && RunWith(l, steps, total) == RunWith(Apply(l, step), rest, spare)
  {
    steps := [step] + rest;
    assert steps[1..] == rest;
  }

  /** One user's bucket after `counted` requests, with `held` in its books, and its
      reservations, the first `settled` of which are settled. */
  predicate Stage(
    l: Ledger, period: Period, limits: Limits, key: string, counted: nat, held: nat, settled: nat, total: nat)
  {
    && l.tracker.period == period && l.tracker.limits == limits
    && key in l.tracker.buckets
    && l.tracker.buckets[key].record.requestCount == counted
    && l.tracker.buckets[key].reservedRequests == held
    && l.tracker.buckets[key].record.bytesIn == 0 && l.tracker.buckets[key].reservedBytesIn == 0
    && l.tracker.buckets[key].record.bytesOut == 0
    && |l.entries| == total && settled <= total
    && (forall i | 0 <= i < total ::
          l.entries[i].reservation == RequestReservation("u", key, 0, true) && (!l.entries[i].outcome.Open? <==> i < settled))
  }

  function KeyNow(period: Period, now: Time): string {
    BucketKey("u", period, PeriodStart(period, now))
  }

  lemma ReserveOne(l: Ledger, period: Period, limits: Limits, now: Time, counted: nat, held: nat, settled: nat, total: nat)
    requires IsCalendar(now.day)
    requires Stage(l, period, limits, KeyNow(period, now), counted, held, settled, total)
    requires counted + held < limits.maxRequests
    ensures Stage(Apply(l, Reserve("u", 0, now)), period, limits, KeyNow(period, now), counted, held + 1, settled, total + 1)
  {
    TrimSpaceTrims("u");
  }

  lemma FirstReserve(period: Period, limits: Limits, now: Time)
    requires IsCalendar(now.day)
    requires limits.maxRequests > 0
    ensures Stage(Apply(NewLedger(period, limits), Reserve("u", 0, now)), period, limits, KeyNow(period, now), 0, 1, 0, 1)
  {
    TrimSpaceTrims("u");
  }

  lemma CompleteOne(
    l: Ledger, period: Period, limits: Limits, now: Time, key: string, counted: nat, held: nat, settled: nat, total: nat, i: nat)
    requires Stage(l, period, limits, key, counted, held, settled, total) && i <= settled && i < total
    ensures Stage(Apply(l, Complete(i, 0, 0, now)), period, limits, key, counted + 1,
                  if held > 0 then held - 1 else 0, if i == settled then settled + 1 else settled, total)
  {
  }

  /** So many requests are counted. */
  predicate CountIs(l: Ledger, key: string, count: nat) {
    key in l.tracker.buckets && l.tracker.buckets[key].record.requestCount == count
  }

  /** All outstanding requests complete. */
  lemma {:induction false} CompleteMany(
    l: Ledger, period: Period, limits: Limits, now: Time, key: string, counted: nat, held: nat, settled: nat, total: nat)
    returns (steps: seq<Step>)
    requires Stage(l, period, limits, key, counted, held, settled, total)
    ensures FeasibleWith(l, steps, 0) && CountIs(RunWith(l, steps, 0), key, counted + total - settled)
    decreases total - settled
  {
    if settled == total {
      steps := [];
    } else {
      var step := Complete(settled, 0, 0, now);
      CompleteOne(l, period, limits, now, key, counted, held, settled, total, settled);
      steps := CompleteMany(Apply(l, step), period, limits, now, key, counted + 1,
                            if held > 0 then held - 1 else 0, settled + 1, total);
      steps := Prepend(l, step, steps, 0);
    }
  }

  lemma SettleAgain(l: Ledger, step: Step, period: Period, limits: Limits, now: Time, key: string, n: nat)
    returns (l': Ledger)
    requires Stage(l, period, limits, key, 0, n, 1, n + 1) && step == Complete(0, 0, 0, now)
    ensures InRange(l, step) && Repeats(l, step) && l' == Apply(l, step)
    ensures Stage(l', period, limits, key, 1, if n > 0 then n - 1 else 0, 1, n + 1)
  {
    CompleteOne(l, period, limits, now, key, 0, n, 1, n + 1, 0);
    l' := Apply(l, step);
  }

  lemma PrependRepeat(l: Ledger, step: Step, l': Ledger, rest: seq<Step>) returns (steps: seq<Step>)
    requires InRange(l, step) && Repeats(l, step) && l' == Apply(l, step) && FeasibleWith(l', rest, 0)
    ensures FeasibleWith(l, steps, 1) && RunWith(l, steps, 1) == RunWith(l', rest, 0)
  {
    steps := Prepend(l, step, rest, 0);
  }

  /** After a repeated settlement: complete the others. */
  lemma RepeatAndFinish(
    l: Ledger, step: Step, l': Ledger, period: Period, limits: Limits, now: Time, key: string, held: nat, n: nat)
    returns (steps: seq<Step>)
    requires InRange(l, step) && Repeats(l, step) && l' == Apply(l, step)
    requires Stage(l', period, limits, key, 1, held, 1, n + 1)
    ensures FeasibleWith(l, steps, 1) && CountIs(RunWith(l, steps, 1), key, n + 1)
  {
    var rest := CompleteMany(l', period, limits, now, key, 1, held, 1, n + 1);
    steps := PrependRepeat(l, step, l', rest);
  }

  /** With one reservation settled: fill the cap, settle that one again, complete. */
  lemma {:induction false} FillAndRepeat(l: Ledger, period: Period, limits: Limits, now: Time, held: nat)
    returns (steps: seq<Step>)
    requires IsCalendar(now.day)
    requires Stage(l, period, limits, KeyNow(period, now), 0, held, 1, held + 1) && held <= limits.maxRequests
    ensures FeasibleWith(l, steps, 1) && CountIs(RunWith(l, steps, 1), KeyNow(period, now), limits.maxRequests + 1)
    decreases limits.maxRequests - held
  {
    if held == limits.maxRequests {
      var key, again := KeyNow(period, now), Complete(0, 0, 0, now);
      var l' := SettleAgain(l, again, period, limits, now, key, held);
      steps := RepeatAndFinish(l, again, l', period, limits, now, key, if held > 0 then held - 1 else 0, held);
    } else {
      ReserveOne(l, period, limits, now, 0, held, 1, held + 1);
      steps := FillAndRepeat(Apply(l, Reserve("u", 0, now)), period, limits, now, held + 1);
      steps := Prepend(l, Reserve("u", 0, now), steps, 1);
    }
  }

  lemma ReleaseFirst(l: Ledger, period: Period, limits: Limits, key: string)
    requires Stage(l, period, limits, key, 0, 1, 0, 1)
    ensures Stage(Apply(l, Release(0)), period, limits, key, 0, 0, 1, 1)
  {
  }

  /** Reserve and release one request; fill the cap with others; settle the first
      again and complete the others: one request too many has been counted. */
  lemma DoubleSettlementBreaksCap(period: Period, limits: Limits, now: Time) returns (steps: seq<Step>)
    requires IsCalendar(now.day)
    requires limits.maxRequests > 0
    ensures FeasibleWith(NewLedger(period, limits), steps, 1)
    ensures CountIs(RunWith(NewLedger(period, limits), steps, 1), KeyNow(period, now), limits.maxRequests + 1)
  {
    var l := NewLedger(period, limits);
    var l' := Apply(l, Reserve("u", 0, now));
    FirstReserve(period, limits, now);
    ReleaseFirst(l', period, limits, KeyNow(period, now));
    steps := FillAndRepeat(Apply(l', Release(0)), period, limits, now, 0);
    steps := Prepend(l', Release(0), steps, 1);
    steps := Prepend(l, Reserve("u", 0, now), steps, 1);
  }

  ghost predicate WithinCap(l: Ledger, key: string) {
    key in l.tracker.buckets && l.tracker.limits.maxRequests > 0 ==>
      l.tracker.buckets[key].record.requestCount <= l.tracker.limits.maxRequests
  }

  ghost predicate CapHoldsOn(period: Period, limits: Limits, spare: nat, steps: seq<Step>, key: string) {
    FeasibleWith(NewLedger(period, limits), steps, spare) ==> WithinCap(RunWith(NewLedger(period, limits), steps, spare), key)
  }

  /** The request cap holds over all runs exactly when no reservation is settled
      twice: a single repetition breaks it, whatever the cap. */
  lemma CapNeedsSingleSettlement(period: Period, limits: Limits, now: Time, spare: nat)
    requires IsCalendar(now.day)
    requires limits.maxRequests > 0
    ensures (forall steps: seq<Step>, key: string :: CapHoldsOn(period, limits, spare, steps, key)) <==> spare == 0
  {
    var l := NewLedger(period, limits);
    if spare == 0 {
      forall steps: seq<Step>, key: string ensures CapHoldsOn(period, limits, spare, steps, key) {
        if FeasibleWith(l, steps, 0) {
          WithoutRepeats(l, steps);
          SingleSettlementKeepsCap(period, limits, steps, key);
        }
      }
    } else {
      var steps := DoubleSettlementBreaksCap(period, limits, now);
      MoreSpare(l, steps, 1, spare);
      LimitsStay(l, steps, spare);
      assert !CapHoldsOn(period, limits, spare, steps, KeyNow(period, now));
    }
  }

  lemma SingleSettlementKeepsCap(period: Period, limits: Limits, steps: seq<Step>, key: string)
    requires Feasible(NewLedger(period, limits), steps)
    ensures WithinCap(Run(NewLedger(period, limits), steps), key)
  {
    var l := NewLedger(period, limits);
    InvRun(l, steps);
    assert BucketOk(Run(l, steps), key);
    if key in Run(l, steps).tracker.buckets {
      var l' := Run(l, steps);
      TotalNatural(Held, l'.tracker, l'.entries, key);
    }
  }

  lemma {:induction false} LimitsStay(l: Ledger, steps: seq<Step>, spare: nat)
    requires FeasibleWith(l, steps, spare)
    ensures RunWith(l, steps, spare).tracker.limits == l.tracker.limits
    decreases |steps|
  {
    if steps != [] {
      ConfigStep(l, steps[0]);
      LimitsStay(Apply(l, steps[0]), steps[1..], if Repeats(l, steps[0]) then spare - 1 else spare);
    }
  }
}
