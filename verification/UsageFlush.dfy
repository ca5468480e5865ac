/** The write-behind flush of usage counters: memory, the snapshot being written
    and the durable list, under concurrent traffic and failing writes
    (internal/usage/tracker.go, internal/usage/store.go). */
module UsageFlush {
  import opened Text
  import opened UsageModel
  import opened UsageStore

  /** `inFlight` is the snapshot between the two sections of Flush; it is empty
      when no flush is in progress. */
  datatype World = World(tracker: Tracker, inFlight: map<string, Record>, durable: seq<Record>)

  /** Everything that can happen to the tracker besides its one flusher; a
      reservation may be settled in any state, any number of times. */
  datatype Step =
    | Reserve(userID: string, estimate: int, now: Time)
    | Release(reservation: RequestReservation)
    | Complete(reservation: RequestReservation, bytesIn: int, bytesOut: int, now: Time)
    | ReserveSlot(userID: string)
    | ReleaseSlot(slot: TunnelReservation)
    | Confirm(slot: TunnelReservation, tunnelID: string, now: Time)
    | Restore(userID: string, tunnelID: string, now: Time)
    | Close(userID: string, tunnelID: string, now: Time)
    | FlushBegins(now: Time)
    | FlushWritten(records: seq<Record>)
    | FlushFailed

  /** The records handed to UpsertMany are those of the snapshot, in any order. */
  ghost predicate Lists(records: seq<Record>, items: map<string, Record>) {
    && (forall i | 0 <= i < |records| :: KeyOf(records[i]) in items && items[KeyOf(records[i])] == records[i])
    && (forall key <- items :: items[key] in records)
  }

  ghost predicate Enabled(w: World, step: Step) {
    match step
    case Reserve(_, _, now) => IsCalendar(now.day)
    case Complete(_, _, _, now) => IsCalendar(now.day)
    case Confirm(_, _, now) => IsCalendar(now.day)
    case Restore(_, _, now) => IsCalendar(now.day)
    case Close(_, _, now) => IsCalendar(now.day)
    case FlushBegins(now) => w.inFlight == map[]
    case FlushWritten(records) => w.inFlight != map[] && Lists(records, w.inFlight)
    case FlushFailed => w.inFlight != map[]
    case _ => true
  }

  ghost function Apply(w: World, step: Step): World
    requires Enabled(w, step)
  {
    var t := w.tracker;
    match step
    case Reserve(userID, estimate, now) => w.(tracker := ReserveRequest(t, userID, estimate, now).0)
    case Release(reservation) => w.(tracker := ReleaseRequest(t, reservation))
    case Complete(reservation, bytesIn, bytesOut, now) =>
      w.(tracker := CompleteRequest(t, reservation, bytesIn, bytesOut, now))
    case ReserveSlot(userID) => w.(tracker := ReserveTunnel(t, userID).0)
    case ReleaseSlot(slot) => w.(tracker := ReleaseTunnelReservation(t, slot))
    case Confirm(slot, tunnelID, now) => w.(tracker := ConfirmTunnel(t, slot, tunnelID, now))
    case Restore(userID, tunnelID, now) => w.(tracker := RestoreTunnel(t, userID, tunnelID, now))
    case Close(userID, tunnelID, now) => w.(tracker := TrackTunnelClosed(t, userID, tunnelID, now))
    case FlushBegins(now) =>
      var (t', items) := BeginFlush(t, now);
      w.(tracker := t', inFlight := items)
    case FlushWritten(records) => w.(inFlight := map[], durable := UpsertAll(w.durable, records))
    case FlushFailed => w.(tracker := FailFlush(t, w.inFlight), inFlight := map[])
  }

  ghost predicate Feasible(w: World, steps: seq<Step>)
    decreases |steps|
  {
    steps == [] || (Enabled(w, steps[0]) && Feasible(Apply(w, steps[0]), steps[1..]))
  }

  ghost function Run(w: World, steps: seq<Step>): World
    requires Feasible(w, steps)
    decreases |steps|
  {
    if steps == [] then w else Run(Apply(w, steps[0]), steps[1..])
  }

  /** The daemon starts with no buckets; the model starts with an empty store. */
  function Init(period: Period, limits: Limits): World {
    World(NewTracker(period, limits), map[], [])
  }

  // Counters.

  predicate SameCounters(a: Record, b: Record) {
    a.requestCount == b.requestCount && a.bytesIn == b.bytesIn && a.bytesOut == b.bytesOut
  }

  predicate NoMore(a: Record, b: Record) {
    a.requestCount <= b.requestCount && a.bytesIn <= b.bytesIn && a.bytesOut <= b.bytesOut
  }

  predicate Zero(a: Record) {
    a.requestCount == 0 && a.bytesIn == 0 && a.bytesOut == 0
  }

  /** What was last handed to the store for a record's key: the snapshot in
      flight, else the durable record, else nothing. */
  function Saved(inFlight: map<string, Record>, durable: seq<Record>, record: Record): seq<Record> {
    if KeyOf(record) in inFlight then [inFlight[KeyOf(record)]] else LastFor(durable, record)
  }

  /** One bucket against the snapshot and the store. */
  predicate Coherent(key: string, bucket: Bucket, inFlight: map<string, Record>, durable: seq<Record>) {
    var record := bucket.record;
    var stored, saved := LastFor(durable, record), Saved(inFlight, durable, record);
    && KeyOf(record) == key && IsCalendar(record.periodStart)
    && record.requestCount >= 0 && record.bytesIn >= 0 && record.bytesOut >= 0
    && (key in inFlight ==> SameKey(inFlight[key], record))
    && (stored != [] && saved != [] ==> NoMore(stored[0], saved[0]))
    && (saved != [] ==> NoMore(saved[0], record))
    && (!bucket.dirty ==> if saved != [] then SameCounters(saved[0], record) else Zero(record))
  }

  ghost predicate AllCoherent(w: World) {
    forall key <- w.tracker.buckets :: Coherent(key, w.tracker.buckets[key], w.inFlight, w.durable)
  }

  /** Every stored record and snapshot belongs to a bucket in memory. */
  ghost predicate Backed(w: World) {
    && DistinctKeys(w.durable)
    && (forall i | 0 <= i < |w.durable| ::
          KeyOf(w.durable[i]) in w.tracker.buckets && SameKey(w.durable[i], w.tracker.buckets[KeyOf(w.durable[i])].record))
    && (forall key <- w.inFlight :: key in w.tracker.buckets)
  }

  ghost predicate Inv(w: World) {
    AllCoherent(w) && Backed(w)
  }

  /** How the tracker's own operations may change buckets: keys stay, counters only
      grow, and growth marks the bucket dirty. */
  predicate Grown(b: Bucket, b': Bucket) {
    && SameKey(b'.record, b.record)
    && NoMore(b.record, b'.record)
    && (b.dirty ==> b'.dirty)
    && (!b'.dirty ==> SameCounters(b.record, b'.record))
  }

  predicate Fresh(key: string, b: Bucket) {
    && KeyOf(b.record) == key && IsCalendar(b.record.periodStart)
    && b.record.requestCount >= 0 && b.record.bytesIn >= 0 && b.record.bytesOut >= 0
    && (!b.dirty ==> Zero(b.record))
  }

  ghost predicate Grows(t: Tracker, t': Tracker) {
    && t.buckets.Keys <= t'.buckets.Keys
    && (forall key <- t'.buckets ::
          if key in t.buckets then Grown(t.buckets[key], t'.buckets[key]) else Fresh(key, t'.buckets[key]))
  }

  lemma GrowsKeeps(w: World, t: Tracker)
    requires Inv(w) && Grows(w.tracker, t)
    ensures Inv(w.(tracker := t))
  {
    var w' := w.(tracker := t);
    forall key | key in t.buckets ensures Coherent(key, t.buckets[key], w.inFlight, w.durable) {
      var record := t.buckets[key].record;
      if key in w.tracker.buckets {
        LastForSame(w.durable, w.tracker.buckets[key].record, record);
      } else {
        NotStored(w, record, key);
      }
    }
  }

  /** Lookups depend on the key alone. */
  lemma {:induction false} LastForSame(records: seq<Record>, a: Record, b: Record)
    requires SameKey(a, b)
    ensures LastFor(records, a) == LastFor(records, b)
    decreases |records|
  {
    if records != [] {
      LastForSame(records[..|records| - 1], a, b);
    }
  }

  lemma {:induction false} LastForAbsent(records: seq<Record>, probe: Record)
    requires forall i | 0 <= i < |records| :: !SameKey(records[i], probe)
    ensures LastFor(records, probe) == []
    decreases |records|
  {
    if records != [] {
      LastForAbsent(records[..|records| - 1], probe);
    }
  }

  lemma NotStored(w: World, record: Record, key: string)
    requires Backed(w) && KeyOf(record) == key && key !in w.tracker.buckets
    ensures LastFor(w.durable, record) == [] && Saved(w.inFlight, w.durable, record) == []
  {
    LastForAbsent(w.durable, record);
  }

  lemma CurrentGrows(t: Tracker, userID: string, now: Time)
    requires IsCalendar(now.day)
    ensures Grows(t, CurrentBucket(t, userID, now).0)
  {
  }

  lemma TouchGrows(t: Tracker, userID: string, now: Time)
    requires IsCalendar(now.day)
    ensures Grows(t, TouchBucket(t, userID, now))
  {
  }

  lemma ReserveGrows(t: Tracker, userID: string, estimate: int, now: Time)
    requires IsCalendar(now.day)
    ensures Grows(t, ReserveRequest(t, userID, estimate, now).0)
  {
    CurrentGrows(t, TrimSpace(userID), now);
  }

  lemma CompleteGrows(t: Tracker, reservation: RequestReservation, bytesIn: int, bytesOut: int, now: Time)
    requires IsCalendar(now.day)
    ensures Grows(t, CompleteRequest(t, reservation, bytesIn, bytesOut, now))
  {
    CurrentGrows(t, reservation.userID, now);
  }

  lemma ConfirmGrows(t: Tracker, slot: TunnelReservation, tunnelID: string, now: Time)
    requires IsCalendar(now.day)
    ensures Grows(t, ConfirmTunnel(t, slot, tunnelID, now))
  {
    var t' := Unreserve(t, slot.userID);
    TouchGrows(t'.(activeTunnels := t'.activeTunnels[slot.userID := Active(t', slot.userID) + {tunnelID}]), slot.userID, now);
  }

  lemma RestoreGrows(t: Tracker, rawUserID: string, tunnelID: string, now: Time)
    requires IsCalendar(now.day)
    ensures Grows(t, RestoreTunnel(t, rawUserID, tunnelID, now))
  {
    var userID := TrimSpace(rawUserID);
    TouchGrows(t.(activeTunnels := t.activeTunnels[userID := Active(t, userID) + {tunnelID}]), userID, now);
  }

  lemma CloseGrows(t: Tracker, rawUserID: string, tunnelID: string, now: Time)
    requires IsCalendar(now.day)
    ensures Grows(t, TrackTunnelClosed(t, rawUserID, tunnelID, now))
  {
    var userID := TrimSpace(rawUserID);
    var left := Active(t, userID) - {tunnelID};
    if userID !in t.activeTunnels {
      TouchGrows(t, userID, now);
    } else if left == {} {
      TouchGrows(t.(activeTunnels := t.activeTunnels - {userID}), userID, now);
    } else {
      TouchGrows(t.(activeTunnels := t.activeTunnels[userID := left]), userID, now);
    }
  }

  // The flusher's sections.

  lemma BeginCoherent(t: Tracker, durable: seq<Record>, now: Time, key: string)
    requires key in t.buckets && Coherent(key, t.buckets[key], map[], durable)
    ensures var (t', items) := BeginFlush(t, now);
      key in t'.buckets && Coherent(key, t'.buckets[key], items, durable)
  {
    var (t', items) := BeginFlush(t, now);
    LastForSame(durable, t.buckets[key].record, t'.buckets[key].record);
    assert key in items <==> t.buckets[key].dirty;
  }

  lemma BackedKept(w: World, t: Tracker, items: map<string, Record>)
    requires Backed(w) && t.buckets.Keys == w.tracker.buckets.Keys && items.Keys <= t.buckets.Keys
    requires forall key <- t.buckets :: SameKey(t.buckets[key].record, w.tracker.buckets[key].record)
    ensures Backed(World(t, items, w.durable))
  {
  }

  lemma BeginAll(t: Tracker, durable: seq<Record>, now: Time)
    requires forall key <- t.buckets :: Coherent(key, t.buckets[key], map[], durable)
    ensures var (t', items) := BeginFlush(t, now);
      forall key <- t'.buckets :: Coherent(key, t'.buckets[key], items, durable)
  {
    forall key | key in BeginFlush(t, now).0.buckets
      ensures Coherent(key, BeginFlush(t, now).0.buckets[key], BeginFlush(t, now).1, durable)
    {
      BeginCoherent(t, durable, now, key);
    }
  }

  lemma BeginKeeps(w: World, now: Time)
    requires Inv(w) && w.inFlight == map[]
    ensures var (t', items) := BeginFlush(w.tracker, now); Inv(World(t', items, w.durable))
  {
    var (t', items) := BeginFlush(w.tracker, now);
    BeginAll(w.tracker, w.durable, now);
    BackedKept(w, t', items);
  }

  lemma FailCoherent(t: Tracker, items: map<string, Record>, durable: seq<Record>, key: string)
    requires key in t.buckets && Coherent(key, t.buckets[key], items, durable)
    ensures var t' := FailFlush(t, items);
      key in t'.buckets && Coherent(key, t'.buckets[key], map[], durable)
  {
    assert FailFlush(t, items).buckets[key].record == t.buckets[key].record;
  }

  lemma FailAll(t: Tracker, items: map<string, Record>, durable: seq<Record>)
    requires forall key <- t.buckets :: Coherent(key, t.buckets[key], items, durable)
    ensures forall key <- FailFlush(t, items).buckets ::
              Coherent(key, FailFlush(t, items).buckets[key], map[], durable)
  {
    forall key | key in FailFlush(t, items).buckets
      ensures Coherent(key, FailFlush(t, items).buckets[key], map[], durable)
    {
      FailCoherent(t, items, durable, key);
    }
  }

  lemma FailKeeps(w: World)
    requires Inv(w)
    ensures Inv(World(FailFlush(w.tracker, w.inFlight), map[], w.durable))
  {
    FailAll(w.tracker, w.inFlight, w.durable);
    BackedKept(w, FailFlush(w.tracker, w.inFlight), map[]);
  }

  /** What the written batch holds for a key is the snapshot's record for it. */
  lemma BatchLookup(w: World, records: seq<Record>, record: Record)
    requires Lists(records, w.inFlight)
    requires KeyOf(record) in w.inFlight ==> SameKey(w.inFlight[KeyOf(record)], record)
    ensures LastFor(records, record) ==
            if KeyOf(record) in w.inFlight then [w.inFlight[KeyOf(record)]] else []
  {
    var key := KeyOf(record);
    if key in w.inFlight {
      BatchPresent(records, w.inFlight, record);
    } else {
      LastForAbsent(records, record);
    }
  }

  lemma {:induction false} BatchPresent(records: seq<Record>, items: map<string, Record>, record: Record)
    requires forall i | 0 <= i < |records| :: KeyOf(records[i]) in items && items[KeyOf(records[i])] == records[i]
    requires KeyOf(record) in items && SameKey(items[KeyOf(record)], record)
    requires items[KeyOf(record)] in records
    ensures LastFor(records, record) == [items[KeyOf(record)]]
    decreases |records|
  {
    var n := |records| - 1;
    if SameKey(records[n], record) {
      assert KeyOf(records[n]) == KeyOf(record);
    } else {
      assert records == records[..n] + [records[n]];
      BatchPresent(records[..n], items, record);
    }
  }

  lemma WrittenCoherent(w: World, records: seq<Record>, key: string)
    requires Inv(w) && Enabled(w, FlushWritten(records)) && key in w.tracker.buckets
    ensures Coherent(key, w.tracker.buckets[key], map[], UpsertAll(w.durable, records))
  {
    var record := w.tracker.buckets[key].record;
    BatchLookup(w, records, record);
    UpsertAllOverrides(w.durable, records, record);
  }

  lemma WrittenKeeps(w: World, records: seq<Record>)
    requires Inv(w) && Enabled(w, FlushWritten(records))
    ensures Inv(Apply(w, FlushWritten(records)))
  {
    var db := UpsertAll(w.durable, records);
    forall key | key in w.tracker.buckets ensures Coherent(key, w.tracker.buckets[key], map[], db) {
      WrittenCoherent(w, records, key);
    }
    WrittenBacked(w, records);
  }

  lemma {:induction false} Origin(db: seq<Record>, records: seq<Record>, i: nat)
    requires i < |UpsertAll(db, records)|
    ensures UpsertAll(db, records)[i] in db || UpsertAll(db, records)[i] in records
    decreases |records|
  {
    if records != [] {
      var n := |records| - 1;
      var mid := UpsertAll(db, records[..n]);
      var r := UpsertAll(db, records)[i];
      assert records[n] in records;
      if r != records[n] {
        assert i < |mid| && mid[i] == r;
        Origin(db, records[..n], i);
        assert forall x | x in records[..n] :: x in records;
      }
    }
  }

  lemma WrittenBacked(w: World, records: seq<Record>)
    requires Inv(w) && Enabled(w, FlushWritten(records))
    ensures Backed(Apply(w, FlushWritten(records)))
  {
    var db := UpsertAll(w.durable, records);
    UpsertAllKeepsKeys(w.durable, records);
    forall i | 0 <= i < |db|
      ensures KeyOf(db[i]) in w.tracker.buckets && SameKey(db[i], w.tracker.buckets[KeyOf(db[i])].record)
    {
      Origin(w.durable, records, i);
      if db[i] in records {
        var j :| 0 <= j < |records| && records[j] == db[i];
        assert Coherent(KeyOf(db[i]), w.tracker.buckets[KeyOf(db[i])], w.inFlight, w.durable);
      }
    }
  }

  lemma {:induction false} UpsertAllKeepsKeys(db: seq<Record>, records: seq<Record>)
    requires DistinctKeys(db)
    ensures DistinctKeys(UpsertAll(db, records))
    decreases |records|
  {
    if records != [] {
      UpsertAllKeepsKeys(db, records[..|records| - 1]);
      UpsertDistinct(UpsertAll(db, records[..|records| - 1]), records[|records| - 1]);
    }
  }

  predicate OfFlusher(step: Step) {
    step.FlushBegins? || step.FlushWritten? || step.FlushFailed?
  }

  lemma TrafficGrows(w: World, step: Step)
    requires Enabled(w, step) && !OfFlusher(step)
    ensures Grows(w.tracker, Apply(w, step).tracker)
    ensures Apply(w, step) == w.(tracker := Apply(w, step).tracker)
  {
    var t := w.tracker;
    match step {
      case Reserve(userID, estimate, now) => ReserveGrows(t, userID, estimate, now);
      case Complete(reservation, bytesIn, bytesOut, now) => CompleteGrows(t, reservation, bytesIn, bytesOut, now);
      case Confirm(slot, tunnelID, now) => ConfirmGrows(t, slot, tunnelID, now);
      case Restore(userID, tunnelID, now) => RestoreGrows(t, userID, tunnelID, now);
      case Close(userID, tunnelID, now) => CloseGrows(t, userID, tunnelID, now);
      case _ =>
    }
  }

  lemma InvStep(w: World, step: Step)
    requires Inv(w) && Enabled(w, step)
    ensures Inv(Apply(w, step))
  {
    match step {
      case FlushBegins(now) => BeginKeeps(w, now);
      case FlushWritten(records) => WrittenKeeps(w, records);
      case FlushFailed => FailKeeps(w);
      case _ =>
        TrafficGrows(w, step);
        GrowsKeeps(w, Apply(w, step).tracker);
    }
  }

  lemma {:induction false} InvRun(w: World, steps: seq<Step>)
    requires Inv(w) && Feasible(w, steps)
    ensures Inv(Run(w, steps))
    decreases |steps|
  {
    if steps != [] {
      InvStep(w, steps[0]);
      InvRun(Apply(w, steps[0]), steps[1..]);
    }
  }

  /** Write-behind coherence over every run from an empty store, with concurrent
      traffic and failed writes: a clean bucket's counters are those of the
      snapshot in flight, else those of the durable record, else zero; no durable
      counter ever exceeds memory; and the stored list has one record per key, each
      for a bucket in memory. */
  lemma FlushCoherent(period: Period, limits: Limits, steps: seq<Step>, key: string)
    requires Feasible(Init(period, limits), steps)
    requires key in Run(Init(period, limits), steps).tracker.buckets
    ensures var w := Run(Init(period, limits), steps);
      var bucket := w.tracker.buckets[key];
      var stored, saved := LastFor(w.durable, bucket.record), Saved(w.inFlight, w.durable, bucket.record);
      && (!bucket.dirty ==> if saved != [] then SameCounters(saved[0], bucket.record) else Zero(bucket.record))
      && (stored != [] ==> NoMore(stored[0], bucket.record))
      && Backed(w)
  {
    InvRun(Init(period, limits), steps);
    assert Coherent(key, Run(Init(period, limits), steps).tracker.buckets[key],
                    Run(Init(period, limits), steps).inFlight, Run(Init(period, limits), steps).durable);
  }

  /** A stored record has its bucket in memory, with at least its counters. */
  predicate Covered(t: Tracker, record: Record) {
    && KeyOf(record) in t.buckets && SameKey(record, t.buckets[KeyOf(record)].record)
    && NoMore(record, t.buckets[KeyOf(record)].record)
  }

  lemma StoredIsCovered(w: World, i: nat)
    requires Inv(w) && i < |w.durable|
    ensures Covered(w.tracker, w.durable[i])
  {
    var record := w.durable[i];
    var bucket := w.tracker.buckets[KeyOf(record)];
    assert Coherent(KeyOf(record), bucket, w.inFlight, w.durable);
    LastForSame(w.durable, bucket.record, record);
    LastForUnique(w.durable, i);
    NoMoreChain(record, Saved(w.inFlight, w.durable, bucket.record), bucket.record);
  }

  lemma NoMoreChain(a: Record, b: seq<Record>, c: Record)
    requires b != [] && NoMore(a, b[0]) && NoMore(b[0], c)
    ensures NoMore(a, c)
  {
  }

  /** The store never exceeds memory: after any run from an empty store, every
      stored record has a bucket for its key that counts at least as much. */
  lemma StoreNeverExceedsMemory(period: Period, limits: Limits, steps: seq<Step>, i: nat)
    requires Feasible(Init(period, limits), steps) && i < |Run(Init(period, limits), steps).durable|
    ensures Covered(Run(Init(period, limits), steps).tracker, Run(Init(period, limits), steps).durable[i])
  {
    InvRun(Init(period, limits), steps);
    StoredIsCovered(Run(Init(period, limits), steps), i);
  }

  /** One step leaves a durable record in its place, for its key, with at least its
      counters. */
  lemma DurableStep(w: World, step: Step, i: nat)
    requires Inv(w) && Enabled(w, step) && i < |w.durable|
    ensures var db := Apply(w, step).durable;
      i < |db| && SameKey(db[i], w.durable[i]) && NoMore(w.durable[i], db[i])
  {
    if step.FlushWritten? {
      var records, before := step.records, w.durable[i];
      UpsertAllAt(w.durable, records, i);
      var bucket := w.tracker.buckets[KeyOf(before)];
      assert Coherent(KeyOf(before), bucket, w.inFlight, w.durable);
      LastForSame(w.durable, bucket.record, before);
      LastForUnique(w.durable, i);
      LastForSame(records, before, bucket.record);
      BatchLookup(w, records, bucket.record);
    }
  }

  /** Over every run durable counters never decrease and durable records never move. */
  lemma {:induction false} DurableOnlyGrows(w: World, steps: seq<Step>, i: nat)
    requires Inv(w) && Feasible(w, steps) && i < |w.durable|
    ensures var db := Run(w, steps).durable;
      i < |db| && SameKey(db[i], w.durable[i]) && NoMore(w.durable[i], db[i])
    decreases |steps|
  {
    if steps != [] {
      DurableStep(w, steps[0], i);
      InvStep(w, steps[0]);
      DurableOnlyGrows(Apply(w, steps[0]), steps[1..], i);
    }
  }

  lemma {:induction false} LastForUnique(db: seq<Record>, i: nat)
    requires DistinctKeys(db) && i < |db|
    ensures LastFor(db, db[i]) == [db[i]]
    decreases |db|
  {
    var n := |db| - 1;
    if i < n {
      assert !SameKey(db[i], db[n]);
      assert db[..n][i] == db[i];
      LastForUnique(db[..n], i);
    }
  }

  // When a record was written.

  /** The clock readings of the flushes in a run. */
  function FlushTimes(steps: seq<Step>): set<Time> {
    if steps == [] then {}
    else (if steps[0].FlushBegins? then {steps[0].now} else {}) + FlushTimes(steps[1..])
  }

  ghost predicate Dated(inFlight: map<string, Record>, durable: seq<Record>, times: set<Time>) {
    && (forall key <- inFlight :: inFlight[key].updatedAt in times)
    && (forall i | 0 <= i < |durable| :: durable[i].updatedAt in times)
  }

  lemma DatedStep(w: World, step: Step, times: set<Time>)
    requires Enabled(w, step) && Dated(w.inFlight, w.durable, times)
    ensures Dated(Apply(w, step).inFlight, Apply(w, step).durable, times + FlushTimes([step]))
  {
    assert FlushTimes([step]) == if step.FlushBegins? then {step.now} else {};
    if step.FlushWritten? {
      var db := UpsertAll(w.durable, step.records);
      forall i | 0 <= i < |db| ensures db[i].updatedAt in times {
        Origin(w.durable, step.records, i);
      }
    }
  }

  /** Every stored record carries the clock reading of a flush of the run. */
  lemma {:induction false} StoredWhenFlushed(w: World, steps: seq<Step>, times: set<Time>)
    requires Feasible(w, steps) && Dated(w.inFlight, w.durable, times)
    ensures Dated(Run(w, steps).inFlight, Run(w, steps).durable, times + FlushTimes(steps))
    decreases |steps|
  {
    if steps == [] {
      assert times + {} == times;
    } else {
      DatedStep(w, steps[0], times);
      StoredWhenFlushed(Apply(w, steps[0]), steps[1..], times + FlushTimes([steps[0]]));
      assert FlushTimes([steps[0]]) + FlushTimes(steps[1..]) == FlushTimes(steps);
      assert times + FlushTimes([steps[0]]) + FlushTimes(steps[1..]) == times + FlushTimes(steps);
    }
  }
}
