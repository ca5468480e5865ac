/** The usage tracker as an object, its operations updating its fields in place
    (internal/usage/tracker.go). */
module UsageTrackers {
  import opened Text
  import opened UsageModel
  import opened UsageStore
  import opened UsageFlush

  /** The flush loop with `todo` still to visit: the other buckets are clean and
      their snapshots taken. */
  ghost predicate Swept(
    t: Tracker, now: Time, todo: set<string>, buckets: map<string, Bucket>, items: map<string, Record>)
  {
    && todo <= t.buckets.Keys && buckets.Keys == t.buckets.Keys
    && (forall key <- buckets ::
          buckets[key] == if key in todo then t.buckets[key] else Cleaned(t, t.buckets[key], now))
    && (forall key <- items :: key in t.buckets && items[key] == Snapshot(t, t.buckets[key], now))
    && (forall key <- t.buckets :: key in items <==> (key !in todo && t.buckets[key].dirty))
  }

  lemma SweptAll(t: Tracker, now: Time, buckets: map<string, Bucket>, items: map<string, Record>)
    requires Swept(t, now, {}, buckets, items)
    ensures (t.(buckets := buckets), items) == BeginFlush(t, now)
  {
    assert buckets == BeginFlush(t, now).0.buckets;
    assert items == BeginFlush(t, now).1;
  }

  /** The records taken so far are exactly the snapshots. */
  ghost predicate Taken(items: map<string, Record>, records: seq<Record>) {
    && (forall key <- items :: items[key] in records)
    && (forall i | 0 <= i < |records| :: IsValue(items, records[i]))
  }

  ghost predicate IsValue(items: map<string, Record>, record: Record) {
    exists key <- items :: items[key] == record
  }

  lemma TakeOne(items: map<string, Record>, records: seq<Record>, key: string, record: Record)
    requires Taken(items, records) && key !in items
    ensures Taken(items[key := record], records + [record])
  {
    var items', records' := items[key := record], records + [record];
    assert records'[|records|] == record && items'[key] == record;
    forall k | k in items ensures items[k] in records' {
      var i :| 0 <= i < |records| && records[i] == items[k];
      assert records'[i] == items[k];
    }
    forall i | 0 <= i < |records| ensures IsValue(items', records[i]) {
      assert IsValue(items, records[i]);
      var k :| k in items && items[k] == records[i];
      assert items'[k] == records[i];
    }
  }

  lemma SweepNext(
    t: Tracker, now: Time, todo: set<string>, buckets: map<string, Bucket>, items: map<string, Record>, key: string)
    requires Swept(t, now, todo, buckets, items) && key in todo
    ensures key in buckets && buckets[key] == t.buckets[key] && key !in items
    ensures if buckets[key].dirty then
              Swept(t, now, todo - {key}, buckets[key := Cleaned(t, buckets[key], now)],
                    items[key := Snapshot(t, buckets[key], now)])
            else Swept(t, now, todo - {key}, buckets, items)
  {
  }

  /** The records the flush loop takes are a batch that FlushWritten may write. */
  lemma TakenLists(t: Tracker, now: Time, items: map<string, Record>, records: seq<Record>)
    requires Keyed(t) && items == BeginFlush(t, now).1 && Taken(items, records)
    ensures Lists(records, items)
  {
    forall i | 0 <= i < |records| ensures KeyOf(records[i]) in items && items[KeyOf(records[i])] == records[i] {
      assert IsValue(items, records[i]);
      var key :| key in items && items[key] == records[i];
      assert KeyOf(records[i]) == KeyOf(t.buckets[key].record);
    }
  }

  class UsageTracker {
    const period: Period
    const limits: Limits
    var buckets: map<string, Bucket>
    var activeTunnels: map<string, set<string>>
    var reservedTunnels: map<string, int>

    ghost function View(): Tracker
      reads this
    {
      Tracker(period, limits, buckets, activeTunnels, reservedTunnels)
    }

    /** Every bucket sits under the key of its record. */
    ghost predicate Valid()
      reads this
    {
      Keyed(View())
    }

    constructor (period: Period, limits: Limits)
      ensures Valid() && View() == NewTracker(period, limits)
    {
      this.period, this.limits := period, limits;
      buckets, activeTunnels, reservedTunnels := map[], map[], map[];
    }

    function ActiveSet(userID: string): set<string>
      reads this
    {
      if userID in activeTunnels then activeTunnels[userID] else {}
    }

    function ReservedCount(userID: string): int
      reads this
    {
      if userID in reservedTunnels then reservedTunnels[userID] else 0
    }

    /** currentBucketLocked: find the bucket of the current period or create it. */
    method CurrentBucketLocked(userID: string, now: Time) returns (key: string)
      requires Valid()
      modifies this`buckets
      ensures Valid()
      ensures (View(), key) == CurrentBucket(old(View()), userID, now)
      ensures key in buckets
    {
      var start := PeriodStart(period, now);
      key := BucketKey(userID, period, start);
      var active := |ActiveSet(userID)|;
      if key in buckets {
        var bucket := buckets[key];
        buckets := buckets[key := bucket.(record := bucket.record.(activeTunnels := active))];
      } else {
        buckets := buckets[key := Bucket(Record(userID, period, start, 0, 0, 0, active, now), 0, 0, false)];
      }
    }

    method TouchBucketLocked(userID: string, now: Time)
      requires Valid()
      modifies this`buckets
      ensures Valid()
      ensures View() == TouchBucket(old(View()), userID, now)
    {
      if userID == "" {
        return;
      }
      var key := CurrentBucketLocked(userID, now);
      var bucket := buckets[key];
      var record := bucket.record.(activeTunnels := |ActiveSet(userID)|, updatedAt := now);
      buckets := buckets[key := bucket.(record := record, dirty := true)];
    }

    method ReserveTunnel(rawUserID: string) returns (result: Result<TunnelReservation>)
      requires Valid()
      modifies this`reservedTunnels
      ensures Valid() && (View(), result) == UsageModel.ReserveTunnel(old(View()), rawUserID)
    {
      var userID := TrimSpace(rawUserID);
      if userID == "" {
        return Granted(NO_TUNNEL);
      }
      var current := |ActiveSet(userID)| + ReservedCount(userID);
      if limits.maxActiveTunnels > 0 && current + 1 > limits.maxActiveTunnels {
        return LimitHit(ActiveTunnels, limits.maxActiveTunnels, current + 1);
      }
      reservedTunnels := reservedTunnels[userID := ReservedCount(userID) + 1];
      return Granted(TunnelReservation(userID, true));
    }

    method ReleaseTunnelReservation(reservation: TunnelReservation)
      requires Valid()
      modifies this`reservedTunnels
      ensures Valid() && View() == UsageModel.ReleaseTunnelReservation(old(View()), reservation)
    {
      if !reservation.acquired || reservation.userID == "" {
        return;
      }
      if ReservedCount(reservation.userID) > 0 {
        reservedTunnels := reservedTunnels[reservation.userID := ReservedCount(reservation.userID) - 1];
      }
    }

    method ConfirmTunnel(reservation: TunnelReservation, tunnelID: string, now: Time)
      requires Valid()
      modifies this
      ensures Valid() && View() == UsageModel.ConfirmTunnel(old(View()), reservation, tunnelID, now)
    {
      if !reservation.acquired || reservation.userID == "" || tunnelID == "" {
        return;
      }
      var userID := reservation.userID;
      if ReservedCount(userID) > 0 {
        reservedTunnels := reservedTunnels[userID := ReservedCount(userID) - 1];
      }
      activeTunnels := activeTunnels[userID := ActiveSet(userID) + {tunnelID}];
      TouchBucketLocked(userID, now);
    }

    method RestoreTunnel(rawUserID: string, tunnelID: string, now: Time)
      requires Valid()
      modifies this
      ensures Valid() && View() == UsageModel.RestoreTunnel(old(View()), rawUserID, tunnelID, now)
    {
      var userID := TrimSpace(rawUserID);
      if userID == "" || tunnelID == "" {
        return;
      }
      activeTunnels := activeTunnels[userID := ActiveSet(userID) + {tunnelID}];
      TouchBucketLocked(userID, now);
    }

    method TrackTunnelClosed(rawUserID: string, tunnelID: string, now: Time)
      requires Valid()
      modifies this
      ensures Valid() && View() == UsageModel.TrackTunnelClosed(old(View()), rawUserID, tunnelID, now)
    {
      var userID := TrimSpace(rawUserID);
      if userID == "" || tunnelID == "" {
        return;
      }
      if userID in activeTunnels {
        activeTunnels := activeTunnels[userID := activeTunnels[userID] - {tunnelID}];
        if activeTunnels[userID] == {} {
          activeTunnels := activeTunnels - {userID};
          assert activeTunnels == old(activeTunnels) - {userID};
        }
      }
      TouchBucketLocked(userID, now);
    }

    /** The limits, in order, and the hold. */
    method HoldRequest(userID: string, key: string, estimate: nat) returns (result: Result<RequestReservation>)
      requires Valid() && key in buckets
      modifies this`buckets
      ensures Valid() && (View(), result) == UsageModel.HoldRequest(old(View()), userID, key, estimate)
    {
      var bucket := buckets[key];
      var projectedRequests := bucket.record.requestCount + bucket.reservedRequests + 1;
      if limits.maxRequests > 0 && projectedRequests > limits.maxRequests {
        return LimitHit(Requests, limits.maxRequests, projectedRequests);
      }
      if limits.maxBytesIn > 0 {
        var projectedBytesIn := bucket.record.bytesIn + bucket.reservedBytesIn + estimate;
        if projectedBytesIn > limits.maxBytesIn {
          return LimitHit(BytesIn, limits.maxBytesIn, projectedBytesIn);
        }
      }
      if limits.maxBytesOut > 0 && bucket.record.bytesOut >= limits.maxBytesOut {
        return LimitHit(BytesOut, limits.maxBytesOut, bucket.record.bytesOut);
      }
      buckets := buckets[key := bucket.(
        reservedRequests := bucket.reservedRequests + 1, reservedBytesIn := bucket.reservedBytesIn + estimate)];
      return Granted(RequestReservation(userID, key, estimate, true));
    }

    method ReserveRequest(rawUserID: string, rawEstimate: int, now: Time) returns (result: Result<RequestReservation>)
      requires Valid()
      modifies this`buckets
      ensures Valid() && (View(), result) == UsageModel.ReserveRequest(old(View()), rawUserID, rawEstimate, now)
    {
      var userID := TrimSpace(rawUserID);
      if userID == "" {
        return Granted(NO_REQUEST);
      }
      var estimate := if rawEstimate < 0 then 0 else rawEstimate;
      var key := CurrentBucketLocked(userID, now);
      result := HoldRequest(userID, key, estimate);
    }

    method ReleaseRequest(reservation: RequestReservation)
      requires Valid()
      modifies this`buckets
      ensures Valid() && View() == UsageModel.ReleaseRequest(old(View()), reservation)
    {
      if !reservation.acquired || reservation.userID == "" || reservation.bucketKey !in buckets {
        return;
      }
      Unhold(reservation.bucketKey, reservation);
    }

    /** The reservation is given back, as far as the bucket holds it. */
    method Unhold(key: string, reservation: RequestReservation)
      requires Valid() && key in buckets
      modifies this`buckets
      ensures Valid()
      ensures View() == UsageModel.Unhold(old(View()), key, reservation) && buckets.Keys == old(buckets.Keys)
    {
      var bucket := buckets[key];
      var requests, bytes := bucket.reservedRequests, 0;
      if requests > 0 {
        requests := requests - 1;
      }
      if bucket.reservedBytesIn >= reservation.estimatedBytesIn {
        bytes := bucket.reservedBytesIn - reservation.estimatedBytesIn;
      }
      bucket := bucket.(reservedRequests := requests, reservedBytesIn := bytes);
      assert UsageModel.Unhold(View(), key, reservation).buckets == buckets[key := bucket];
      buckets := buckets[key := bucket];
    }

    method Charge(key: string, userID: string, bytesIn: nat, bytesOut: nat, now: Time)
      requires Valid() && key in buckets
      modifies this`buckets
      ensures Valid() && View() == UsageModel.Charge(old(View()), key, userID, bytesIn, bytesOut, now)
    {
      var bucket := buckets[key];
      var record := bucket.record;
      record := record.(requestCount := record.requestCount + 1);
      record := record.(bytesIn := record.bytesIn + bytesIn);
      record := record.(bytesOut := record.bytesOut + bytesOut);
      record := record.(activeTunnels := |ActiveSet(userID)|, updatedAt := now);
      buckets := buckets[key := bucket.(record := record, dirty := true)];
    }

    method CompleteRequest(reservation: RequestReservation, rawIn: int, rawOut: int, now: Time)
      requires Valid()
      modifies this`buckets
      ensures Valid() && View() == UsageModel.CompleteRequest(old(View()), reservation, rawIn, rawOut, now)
    {
      if !reservation.acquired || reservation.userID == "" {
        return;
      }
      var bytesIn := if rawIn < 0 then 0 else rawIn;
      var bytesOut := if rawOut < 0 then 0 else rawOut;
      var key := reservation.bucketKey;
      if key !in buckets {
        key := CurrentBucketLocked(reservation.userID, now);
      }
      Unhold(key, reservation);
      Charge(key, reservation.userID, bytesIn, bytesOut, now);
    }

    /** The first section of Flush: a loop over the buckets, in any order. */
    method SnapshotDirty(now: Time) returns (items: map<string, Record>, records: seq<Record>)
      modifies this`buckets
      ensures (View(), items) == BeginFlush(old(View()), now)
      ensures Taken(items, records)
    {
      ghost var t := View();
      items, records := map[], [];
      var todo := buckets.Keys;
      while todo != {}
        invariant Swept(t, now, todo, buckets, items) && Taken(items, records)
        decreases |todo|
      {
        var key :| key in todo;
        SweepNext(t, now, todo, buckets, items, key);
        if buckets[key].dirty {
          var record := SnapshotOne(key, now);
          TakeOne(items, records, key, record);
          items := items[key := record];
          records := records + [record];
        }
        todo := todo - {key};
      }
      SweptAll(t, now, buckets, items);
    }

    /** The loop's body for a dirty bucket. */
    method SnapshotOne(key: string, now: Time) returns (record: Record)
      requires key in buckets && buckets[key].dirty
      modifies this`buckets
      ensures record == Snapshot(old(View()), old(buckets[key]), now)
      ensures buckets == old(buckets)[key := Cleaned(old(View()), old(buckets[key]), now)]
    {
      var bucket := buckets[key];
      record := bucket.record.(activeTunnels := |ActiveSet(bucket.record.userID)|, updatedAt := now);
      buckets := buckets[key := bucket.(record := record, dirty := false)];
    }

    /** Flush with no other goroutine between its sections. The store write either
        happens whole or, when `writable` is false, not at all. */
    method Flush(store: Store, writable: bool, now: Time) returns (ok: bool)
      requires Valid()
      modifies this`buckets, store
      ensures Valid()
      ensures var (t, items) := BeginFlush(old(View()), now);
        if items == map[] then ok && View() == t && store.records == old(store.records)
        else if writable then
          ok && View() == t &&
          exists records :: Lists(records, items) && store.records == UpsertAll(old(store.records), records)
        else !ok && View() == FailFlush(t, items) && store.records == old(store.records)
    {
      ghost var t := View();
      var items, records := SnapshotDirty(now);
      TakenLists(t, now, items, records);
      KeyedFlush(t, now, items);
      KeyedFlush(BeginFlush(t, now).0, now, items);
      if items == map[] {
        return true;
      }
      if writable {
        store.UpsertMany(records);
        return true;
      }
      MarkDirty(items);
      return false;
    }

    /** The section of Flush after a failed write. */
    method MarkDirty(items: map<string, Record>)
      modifies this`buckets
      ensures View() == FailFlush(old(View()), items)
    {
      var todo := items.Keys;
      while todo != {}
        invariant todo <= items.Keys && buckets.Keys == old(buckets).Keys
        invariant forall key <- buckets ::
          buckets[key] == if key in items && key !in todo then old(buckets[key]).(dirty := true) else old(buckets[key])
        decreases |todo|
      {
        var key :| key in todo;
        if key in buckets {
          buckets := buckets[key := buckets[key].(dirty := true)];
        }
        todo := todo - {key};
      }
    }
  }
}
