/** The durable usage database: a list of records updated in place by key
    (internal/usage/store.go). */
module UsageStore {
  import opened UsageModel

  predicate SameKey(a: Record, b: Record) {
    a.userID == b.userID && a.period == b.period && a.periodStart == b.periodStart
  }

  predicate DistinctKeys(db: seq<Record>) {
    forall i, j | 0 <= i < j < |db| :: !SameKey(db[i], db[j])
  }

  /** The first record with the key, or the end of the list. */
  function Find(db: seq<Record>, record: Record): (i: nat)
    ensures i <= |db|
    ensures i < |db| ==> SameKey(db[i], record)
    ensures forall j | 0 <= j < i :: !SameKey(db[j], record)
  {
    if db == [] then 0
    else if SameKey(db[0], record) then 0
    else 1 + Find(db[1..], record)
  }

  function Upsert(db: seq<Record>, record: Record): seq<Record> {
    var i := Find(db, record);
    if i < |db| then db[i := record] else db + [record]
  }

  function UpsertAll(db: seq<Record>, records: seq<Record>): seq<Record> {
    if records == [] then db
    else Upsert(UpsertAll(db, records[..|records| - 1]), records[|records| - 1])
  }

  /** The record a list holds for the key of `record`, if any: the last supplied
      wins in a batch. */
  function LastFor(records: seq<Record>, record: Record): seq<Record> {
    if records == [] then []
    else if SameKey(records[|records| - 1], record) then [records[|records| - 1]]
    else LastFor(records[..|records| - 1], record)
  }

  lemma FindUnique(db: seq<Record>, record: Record, i: nat)
    requires i < |db| && SameKey(db[i], record) && DistinctKeys(db)
    ensures Find(db, record) == i
  {
    var f := Find(db, record);
    assert f <= i;
    if f < i {
      assert SameKey(db[f], db[i]);
    }
  }

  lemma UpsertDistinct(db: seq<Record>, record: Record)
    requires DistinctKeys(db)
    ensures DistinctKeys(Upsert(db, record))
  {
    var i := Find(db, record);
    var db' := Upsert(db, record);
    forall a, b | 0 <= a < b < |db'| ensures !SameKey(db'[a], db'[b]) {
      if i < |db| {
        assert SameKey(db[i], record);
      }
    }
  }

  /** What one upsert does for every key, and for positions. */
  lemma UpsertEffect(db: seq<Record>, record: Record, probe: Record)
    requires DistinctKeys(db)
    ensures var db' := Upsert(db, record);
      && |db| <= |db'|
      && (forall i | 0 <= i < |db| :: db'[i] == if SameKey(db[i], record) then record else db[i])
      && LastFor(db', probe) == if SameKey(record, probe) then [record] else LastFor(db, probe)
  {
    var i := Find(db, record);
    var db' := Upsert(db, record);
    forall j | 0 <= j < |db| ensures db'[j] == if SameKey(db[j], record) then record else db[j] {
      if SameKey(db[j], record) {
        FindUnique(db, record, j);
      }
    }
    UpsertDistinct(db, record);
    if i < |db| {
      UpdateLookup(db, i, record, probe);
    } else {
      assert db'[..|db|] == db;
    }
  }

  lemma {:induction false} UpdateLookup(db: seq<Record>, i: nat, record: Record, probe: Record)
    requires i < |db| && SameKey(db[i], record) && DistinctKeys(db)
    ensures LastFor(db[i := record], probe) == if SameKey(record, probe) then [record] else LastFor(db, probe)
    decreases |db|
  {
    var n := |db| - 1;
    if i == n {
      assert db[i := record][..n] == db[..n];
    } else {
      assert db[i := record][..n] == db[..n][i := record];
      UpdateLookup(db[..n], i, record, probe);
      if SameKey(record, probe) {
        assert !SameKey(db[n], probe) by { assert !SameKey(db[i], db[n]); }
      }
    }
  }

  /** UpsertMany is a map override. Keys stay unique; every key ends with the last
      record supplied for it, or keeps its old one; records of keys not mentioned
      keep their value and position, and new keys go to the end. */
  lemma {:induction false} UpsertAllOverrides(db: seq<Record>, records: seq<Record>, probe: Record)
    requires DistinctKeys(db)
    ensures var db' := UpsertAll(db, records);
      && DistinctKeys(db')
      && LastFor(db', probe) == (if LastFor(records, probe) != [] then LastFor(records, probe) else LastFor(db, probe))
      && |db| <= |db'|
      && (forall i | 0 <= i < |db| ::
            db'[i] == if LastFor(records, db[i]) != [] then LastFor(records, db[i])[0] else db[i])
    decreases |records|
  {
    if records != [] {
      var init, last := records[..|records| - 1], records[|records| - 1];
      UpsertAllOverrides(db, init, probe);
      var mid := UpsertAll(db, init);
      UpsertDistinct(mid, last);
      UpsertEffect(mid, last, probe);
      forall i | 0 <= i < |db|
        ensures UpsertAll(db, records)[i] ==
                if LastFor(records, db[i]) != [] then LastFor(records, db[i])[0] else db[i]
      {
        UpsertAllAt(db, init, i);
        LastForKey(init, db[i]);
      }
    }
  }

  lemma {:induction false} LastForKey(records: seq<Record>, probe: Record)
    ensures LastFor(records, probe) != [] ==> SameKey(LastFor(records, probe)[0], probe)
    decreases |records|
  {
    if records != [] {
      LastForKey(records[..|records| - 1], probe);
    }
  }

  /** A stored record never changes key or place. */
  lemma {:induction false} UpsertAllAt(db: seq<Record>, records: seq<Record>, i: nat)
    requires DistinctKeys(db) && i < |db|
    ensures DistinctKeys(UpsertAll(db, records))
    ensures i < |UpsertAll(db, records)| && SameKey(UpsertAll(db, records)[i], db[i])
    ensures UpsertAll(db, records)[i] ==
            if LastFor(records, db[i]) != [] then LastFor(records, db[i])[0] else db[i]
    decreases |records|
  {
    if records != [] {
      var init, last := records[..|records| - 1], records[|records| - 1];
      UpsertAllAt(db, init, i);
      UpsertDistinct(UpsertAll(db, init), last);
      UpsertEffect(UpsertAll(db, init), last, last);
    }
  }

  class Store {
    var records: seq<Record>

    /** The loaded database is updated record by record and written back whole. */
    method UpsertMany(batch: seq<Record>)
      modifies this
      ensures records == UpsertAll(old(records), batch)
    {
      var db := records;
      for b := 0 to |batch|
        invariant db == UpsertAll(old(records), batch[..b])
      {
        var record := batch[b];
        var before := db;
        var replaced := false;
        var i := 0;
        while i < |db|
          invariant 0 <= i <= |db| && db == before && !replaced
          invariant forall j | 0 <= j < i :: !SameKey(before[j], record)
          decreases |db| - i
        {
          if SameKey(db[i], record) {
            FindFirst(before, record, i);
            db := db[i := record];
            replaced := true;
            break;
          }
          i := i + 1;
        }
        if !replaced {
          db := db + [record];
        }
        assert batch[..b + 1][..b] == batch[..b];
      }
      assert batch[..|batch|] == batch;
      records := db;
    }
  }

  lemma FindFirst(db: seq<Record>, record: Record, i: nat)
    requires i < |db| && SameKey(db[i], record) && forall j | 0 <= j < i :: !SameKey(db[j], record)
    ensures Find(db, record) == i
  {
  }
}
