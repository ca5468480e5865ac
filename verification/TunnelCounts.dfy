/** How the number of a user's active tunnels comes to the usage store
    (internal/usage/tracker.go). */
module TunnelCounts {
  import opened Text
  import opened UsageModel
  import opened UsageStore
  import opened UsageFlush

  /** The user whose tunnels a step changes; none for every other step. */
  function ChangedUser(step: Step): string {
    match step
    case Confirm(slot, tunnelID, _) => if slot.acquired && tunnelID != "" then slot.userID else ""
    case Restore(userID, tunnelID, _) => if tunnelID != "" then TrimSpace(userID) else ""
    case Close(userID, tunnelID, _) => if tunnelID != "" then TrimSpace(userID) else ""
    case _ => ""
  }

  ghost predicate NoChange(steps: seq<Step>, userID: string) {
    forall i | 0 <= i < |steps| :: ChangedUser(steps[i]) != userID
  }

  /** The key of the bucket a change falls into. */
  function ChangeKey(period: Period, change: Step): string
    requires ChangedUser(change) != ""
  {
    BucketKey(ChangedUser(change), period, PeriodStart(period, change.now))
  }

  predicate ShownBy(saved: seq<Record>, count: nat) {
    saved != [] && saved[0].activeTunnels == count
  }

  /** The bucket is still to be flushed, or the record last handed to the store for
      it shows how many tunnels the user has. */
  predicate Shown(w: World, key: string, userID: string) {
    key in w.tracker.buckets &&
    var bucket := w.tracker.buckets[key];
    bucket.record.userID == userID &&
    (bucket.dirty || ShownBy(Saved(w.inFlight, w.durable, bucket.record), |Active(w.tracker, userID)|))
  }

  lemma OwnerOfBucket(w: World, userID: string, start: Day)
    requires Inv(w) && IsCalendar(start)
    ensures var key := BucketKey(userID, w.tracker.period, start);
      key in w.tracker.buckets ==> w.tracker.buckets[key].record.userID == userID
  {
    var key := BucketKey(userID, w.tracker.period, start);
    if key in w.tracker.buckets {
      var record := w.tracker.buckets[key].record;
      assert Coherent(key, w.tracker.buckets[key], w.inFlight, w.durable);
      BucketKeyInjective(userID, w.tracker.period, start, record.userID, record.period, record.periodStart);
    }
  }

  predicate Marked(t: Tracker, key: string, userID: string) {
    key in t.buckets && t.buckets[key].record.userID == userID && t.buckets[key].dirty
  }

  lemma TouchMarks(t: Tracker, userID: string, now: Time, key: string)
    requires userID != "" && key == BucketKey(userID, t.period, PeriodStart(t.period, now))
    requires key in t.buckets ==> t.buckets[key].record.userID == userID
    ensures Marked(TouchBucket(t, userID, now), key, userID)
  {
  }

  /** A change marks its bucket. */
  lemma ChangeMarks(t: Tracker, change: Step, userID: string, key: string)
    requires ChangedUser(change) == userID != "" && key == ChangeKey(t.period, change)
    requires key in t.buckets ==> t.buckets[key].record.userID == userID
    ensures Marked(match change
                   case Confirm(slot, tunnelID, now) => ConfirmTunnel(t, slot, tunnelID, now)
                   case Restore(rawUserID, tunnelID, now) => RestoreTunnel(t, rawUserID, tunnelID, now)
                   case Close(rawUserID, tunnelID, now) => TrackTunnelClosed(t, rawUserID, tunnelID, now)
                   case _ => t, key, userID)
  {
    match change
    case Confirm(slot, tunnelID, now) =>
      var t' := Unreserve(t, userID);
      TouchMarks(t'.(activeTunnels := t'.activeTunnels[userID := Active(t', userID) + {tunnelID}]), userID, now, key);
    case Restore(_, tunnelID, now) =>
      TouchMarks(t.(activeTunnels := t.activeTunnels[userID := Active(t, userID) + {tunnelID}]), userID, now, key);
    case Close(_, tunnelID, now) =>
      var left := Active(t, userID) - {tunnelID};
      TouchMarks(t, userID, now, key);
      TouchMarks(t.(activeTunnels := t.activeTunnels - {userID}), userID, now, key);
      TouchMarks(t.(activeTunnels := t.activeTunnels[userID := left]), userID, now, key);
    case _ =>
  }

  lemma ChangeIsShown(w: World, change: Step, userID: string, key: string)
    requires Inv(w) && Enabled(w, change)
    requires ChangedUser(change) == userID != "" && key == ChangeKey(w.tracker.period, change)
    ensures Shown(Apply(w, change), key, userID)
  {
    OwnerOfBucket(w, userID, PeriodStart(w.tracker.period, change.now));
    ChangeMarks(w.tracker, change, userID, key);
  }

  // Other steps.

  lemma CurrentKeepsTunnels(t: Tracker, userID: string, now: Time)
    ensures CurrentBucket(t, userID, now).0.activeTunnels == t.activeTunnels
    ensures TouchBucket(t, userID, now).activeTunnels == t.activeTunnels
  {
  }

  lemma ReserveKeepsTunnels(t: Tracker, userID: string, estimate: int, now: Time)
    ensures ReserveRequest(t, userID, estimate, now).0.activeTunnels == t.activeTunnels
  {
    CurrentKeepsTunnels(t, TrimSpace(userID), now);
  }

  lemma CompleteKeepsTunnels(t: Tracker, r: RequestReservation, bytesIn: int, bytesOut: int, now: Time)
    ensures CompleteRequest(t, r, bytesIn, bytesOut, now).activeTunnels == t.activeTunnels
  {
    CurrentKeepsTunnels(t, r.userID, now);
  }

  lemma ConfirmKeepsOthers(t: Tracker, slot: TunnelReservation, tunnelID: string, now: Time, userID: string)
    requires ChangedUser(Confirm(slot, tunnelID, now)) != userID
    ensures Active(ConfirmTunnel(t, slot, tunnelID, now), userID) == Active(t, userID)
  {
    var t' := Unreserve(t, slot.userID);
    CurrentKeepsTunnels(
      t'.(activeTunnels := t'.activeTunnels[slot.userID := Active(t', slot.userID) + {tunnelID}]), slot.userID, now);
  }

  lemma RestoreKeepsOthers(t: Tracker, rawUserID: string, tunnelID: string, now: Time, userID: string)
    requires ChangedUser(Restore(rawUserID, tunnelID, now)) != userID
    ensures Active(RestoreTunnel(t, rawUserID, tunnelID, now), userID) == Active(t, userID)
  {
    var u := TrimSpace(rawUserID);
    CurrentKeepsTunnels(t.(activeTunnels := t.activeTunnels[u := Active(t, u) + {tunnelID}]), u, now);
  }

  lemma CloseKeepsOthers(t: Tracker, rawUserID: string, tunnelID: string, now: Time, userID: string)
    requires ChangedUser(Close(rawUserID, tunnelID, now)) != userID
    ensures Active(TrackTunnelClosed(t, rawUserID, tunnelID, now), userID) == Active(t, userID)
  {
    var u := TrimSpace(rawUserID);
    var left := Active(t, u) - {tunnelID};
    CurrentKeepsTunnels(t, u, now);
    CurrentKeepsTunnels(t.(activeTunnels := t.activeTunnels - {u}), u, now);
    CurrentKeepsTunnels(t.(activeTunnels := t.activeTunnels[u := left]), u, now);
  }

  lemma QuietKeeps(w: World, step: Step, userID: string)
    requires Enabled(w, step) && !OfFlusher(step) && ChangedUser(step) != userID
    ensures Active(Apply(w, step).tracker, userID) == Active(w.tracker, userID)
  {
    var t := w.tracker;
    match step {
      case Reserve(rawUserID, estimate, now) => ReserveKeepsTunnels(t, rawUserID, estimate, now);
      case Complete(reservation, bytesIn, bytesOut, now) =>
        CompleteKeepsTunnels(t, reservation, bytesIn, bytesOut, now);
      case Confirm(slot, tunnelID, now) => ConfirmKeepsOthers(t, slot, tunnelID, now, userID);
      case Restore(rawUserID, tunnelID, now) => RestoreKeepsOthers(t, rawUserID, tunnelID, now, userID);
      case Close(rawUserID, tunnelID, now) => CloseKeepsOthers(t, rawUserID, tunnelID, now, userID);
      case _ =>
    }
  }

  lemma TrafficShows(w: World, t: Tracker, key: string, userID: string)
    requires Shown(w, key, userID) && Grows(w.tracker, t) && Active(t, userID) == Active(w.tracker, userID)
    ensures Shown(w.(tracker := t), key, userID)
  {
    assert Grown(w.tracker.buckets[key], t.buckets[key]);
    LastForSame(w.durable, w.tracker.buckets[key].record, t.buckets[key].record);
  }

  /** The snapshot counts the tunnels anew. */
  lemma BeginShows(t: Tracker, durable: seq<Record>, now: Time, key: string, userID: string)
    requires key in t.buckets && Coherent(key, t.buckets[key], map[], durable)
    requires Shown(World(t, map[], durable), key, userID)
    ensures var (t', items) := BeginFlush(t, now); Shown(World(t', items, durable), key, userID)
  {
    var (t', items) := BeginFlush(t, now);
    LastForSame(durable, t.buckets[key].record, t'.buckets[key].record);
    assert key in items <==> t.buckets[key].dirty;
  }

  lemma WrittenShows(w: World, records: seq<Record>, key: string, userID: string)
    requires Inv(w) && Enabled(w, FlushWritten(records)) && Shown(w, key, userID)
    ensures Shown(Apply(w, FlushWritten(records)), key, userID)
  {
    var record := w.tracker.buckets[key].record;
    assert Coherent(key, w.tracker.buckets[key], w.inFlight, w.durable);
    BatchLookup(w, records, record);
    UpsertAllOverrides(w.durable, records, record);
  }

  lemma FailedShows(w: World, key: string, userID: string)
    requires Inv(w) && Shown(w, key, userID)
    ensures Shown(w.(tracker := FailFlush(w.tracker, w.inFlight), inFlight := map[]), key, userID)
  {
    assert Coherent(key, w.tracker.buckets[key], w.inFlight, w.durable);
  }

  lemma QuietShows(w: World, step: Step, key: string, userID: string)
    requires Enabled(w, step) && !OfFlusher(step) && ChangedUser(step) != userID && Shown(w, key, userID)
    ensures Shown(Apply(w, step), key, userID)
  {
    var w' := Apply(w, step);
    TrafficGrows(w, step);
    QuietKeeps(w, step, userID);
    TrafficShows(w, w'.tracker, key, userID);
  }

  lemma ShownStep(w: World, step: Step, key: string, userID: string)
    requires Inv(w) && Enabled(w, step) && ChangedUser(step) != userID && Shown(w, key, userID)
    ensures Shown(Apply(w, step), key, userID)
  {
    if step.FlushBegins? {
      assert Coherent(key, w.tracker.buckets[key], map[], w.durable);
      BeginShows(w.tracker, w.durable, step.now, key, userID);
    } else if step.FlushWritten? {
      WrittenShows(w, step.records, key, userID);
    } else if step.FlushFailed? {
      FailedShows(w, key, userID);
    } else {
      QuietShows(w, step, key, userID);
    }
  }

  lemma {:induction false} ShownRun(w: World, steps: seq<Step>, key: string, userID: string)
    requires Inv(w) && Feasible(w, steps) && NoChange(steps, userID) && Shown(w, key, userID)
    ensures Shown(Run(w, steps), key, userID)
    decreases |steps|
  {
    if steps != [] {
      ShownStep(w, steps[0], key, userID);
      InvStep(w, steps[0]);
      ShownRun(Apply(w, steps[0]), steps[1..], key, userID);
    }
  }

  /** After any run from an empty store, let a user's tunnels change, and then
      anything happen but another change of this user's: when the bucket of the
      change is clean again, the record last handed to the store for it shows how
      many tunnels the user has. Failed writes and other traffic do not matter. */
  lemma CountReachesStore(period: Period, limits: Limits, before: seq<Step>, change: Step, after: seq<Step>)
    requires Feasible(Init(period, limits), before) && Enabled(Run(Init(period, limits), before), change)
    requires Feasible(Apply(Run(Init(period, limits), before), change), after)
    requires ChangedUser(change) != "" && NoChange(after, ChangedUser(change))
    ensures Shown(Run(Apply(Run(Init(period, limits), before), change), after),
                  ChangeKey(Run(Init(period, limits), before).tracker.period, change), ChangedUser(change))
  {
    InvRun(Init(period, limits), before);
    var w := Run(Init(period, limits), before);
    ChangeIsShown(w, change, ChangedUser(change), ChangeKey(w.tracker.period, change));
    InvStep(w, change);
    ShownRun(Apply(w, change), after, ChangeKey(w.tracker.period, change), ChangedUser(change));
  }
}
