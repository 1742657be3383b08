// The replay transaction: what Backfill stores for sorted inputs.
module Replay {
  import opened Common
  import opened Status
  import opened SyncDb
  import opened SyncInv
  import opened SyncTx

  // Rows as Backfill builds them for one order and one new batch.
  ghost predicate ForBatch(rows: seq<Record>, orderId: Id, batchId: Id) {
    forall i | 0 <= i < |rows| ::
      && rows[i].orderId == orderId && rows[i].batchId == batchId && rows[i].status == Pending
      && rows[i].conflictId == None && rows[i].manualId == None && rows[i].version == 1
  }

  // Row i brings a sequence number that neither the tables nor an earlier row has.
  ghost predicate FirstNew(db: Db, rows: seq<Record>, i: nat)
    requires i < |rows|
  {
    rows[i].Key() !in db.bySeq && forall j | 0 <= j < i :: rows[j].Key() != rows[i].Key()
  }

  ghost function CountNew(db: Db, rows: seq<Record>): (n: nat)
    ensures n <= |rows|
  {
    if rows == [] then 0
    else CountNew(db, rows[..|rows| - 1]) + if FirstNew(db, rows, |rows| - 1) then 1 else 0
  }

  lemma {:induction false} CountNewMonotone(db: Db, rows: seq<Record>, i: nat, j: nat)
    requires i <= j <= |rows|
    ensures CountNew(db, rows[..i]) <= CountNew(db, rows[..j])
    ensures i < j && FirstNew(db, rows, i) ==> CountNew(db, rows[..i]) < CountNew(db, rows[..j])
  {
    if i < j {
      assert rows[..j][..j - 1] == rows[..j - 1];
      if i == j - 1 {
        assert FirstNew(db, rows, i) == FirstNew(db, rows[..j], i);
      } else {
        CountNewMonotone(db, rows, i, j - 1);
      }
    }
  }

  // The index names exactly the stored rows, and change versions are distinct
  // and below the counter.
  ghost predicate SeqOk(db: Db) {
    && (forall id | id in db.records ::
          db.records[id].Key() in db.bySeq && db.bySeq[db.records[id].Key()] == id
          && db.records[id].changeVersion < db.nextVersion)
    && (forall k | k in db.bySeq :: db.bySeq[k] in db.records && db.records[db.bySeq[k]].Key() == k)
    && (forall a, b | a in db.records && b in db.records ::
          db.records[a].changeVersion == db.records[b].changeVersion ==> a == b)
  }

  // The stored form of row i.
  ghost function Numbered(db: Db, rows: seq<Record>, i: nat): Record
    requires i < |rows|
  {
    rows[i].(changeVersion := db.nextVersion + CountNew(db, rows[..i]))
  }

  ghost predicate KeptAndKeyed(db: Db, rows: seq<Record>, db': Db) {
    && db' == db.(records := db'.records, bySeq := db'.bySeq, nextVersion := db'.nextVersion)
    && db'.nextVersion == db.nextVersion + CountNew(db, rows)
    && (forall id | id in db.records :: id in db'.records && db'.records[id] == db.records[id])
    && (forall k | k in db.bySeq :: k in db'.bySeq && db'.bySeq[k] == db.bySeq[k])
    && (forall i | 0 <= i < |rows| :: rows[i].Key() in db'.bySeq)
    && (forall k | k in db'.bySeq && k !in db.bySeq :: exists i :: 0 <= i < |rows| && rows[i].Key() == k)
  }

  // Each first-new row is stored under its own id with the next change version.
  ghost predicate RowStored(db: Db, rows: seq<Record>, i: nat, db': Db)
    requires i < |rows|
  {
    FirstNew(db, rows, i) ==>
      && rows[i].id !in db.records && rows[i].id in db'.records
      && db'.records[rows[i].id] == Numbered(db, rows, i)
      && rows[i].Key() in db'.bySeq && db'.bySeq[rows[i].Key()] == rows[i].id
  }

  ghost predicate OnlyRows(db: Db, rows: seq<Record>, db': Db) {
    forall id | id in db'.records && id !in db.records ::
      exists i :: 0 <= i < |rows| && rows[i].id == id && FirstNew(db, rows, i)
  }

  ghost predicate Filled(db: Db, rows: seq<Record>, db': Db) {
    && KeptAndKeyed(db, rows, db')
    && SeqOk(db')
    && AllStored(db, rows, db')
    && OnlyRows(db, rows, db')
    && db'.records.Keys - db.records.Keys == NewIds(db, rows)
    && |NewIds(db, rows)| == CountNew(db, rows)
  }

  ghost function NewIds(db: Db, rows: seq<Record>): set<Id> {
    set i | 0 <= i < |rows| && FirstNew(db, rows, i) :: rows[i].id
  }

  ghost predicate AllStored(db: Db, rows: seq<Record>, db': Db) {
    forall i | 0 <= i < |rows| :: RowStored(db, rows, i, db')
  }

  // What one row adds: nothing, or itself with the counter's version.
  lemma InsertOneAdds(mid: Db, r: Record, db': Db)
    requires InsertOne(mid, r) == Ok(db')
    ensures r.Key() in mid.bySeq ==> db' == mid
    ensures r.Key() !in mid.bySeq ==>
              r.id !in mid.records
              && db' == mid.(records := mid.records[r.id := r.(changeVersion := mid.nextVersion)],
                             bySeq := mid.bySeq[r.Key() := r.id], nextVersion := mid.nextVersion + 1)
  {
  }

  lemma PrefixSees(db: Db, prefix: seq<Record>, r: Record, i: nat)
    requires i < |prefix|
    ensures FirstNew(db, prefix + [r], i) == FirstNew(db, prefix, i)
    ensures Numbered(db, prefix + [r], i) == Numbered(db, prefix, i)
  {
    assert (prefix + [r])[..i] == prefix[..i];
  }

  lemma CountLast(db: Db, prefix: seq<Record>, r: Record)
    ensures CountNew(db, prefix + [r]) == CountNew(db, prefix) + if FirstNew(db, prefix + [r], |prefix|) then 1 else 0
    ensures Numbered(db, prefix + [r], |prefix|) == r.(changeVersion := db.nextVersion + CountNew(db, prefix))
  {
    assert (prefix + [r])[..|prefix|] == prefix;
  }

  lemma LastIsNew(db: Db, prefix: seq<Record>, r: Record, mid: Db)
    requires KeptAndKeyed(db, prefix, mid)
    ensures FirstNew(db, prefix + [r], |prefix|) <==> r.Key() !in mid.bySeq
  {
    assert forall j | 0 <= j < |prefix| :: (prefix + [r])[j] == prefix[j];
    if r.Key() in mid.bySeq && r.Key() !in db.bySeq {
      var j :| 0 <= j < |prefix| && prefix[j].Key() == r.Key();
      assert (prefix + [r])[j].Key() == r.Key();
    }
  }

  lemma NewIdsGrow(db: Db, prefix: seq<Record>, r: Record)
    ensures NewIds(db, prefix + [r]) == NewIds(db, prefix) + if FirstNew(db, prefix + [r], |prefix|) then {r.id} else {}
  {
    forall i | 0 <= i < |prefix|
      ensures FirstNew(db, prefix + [r], i) == FirstNew(db, prefix, i) && (prefix + [r])[i] == prefix[i]
    {
      PrefixSees(db, prefix, r, i);
    }
  }

  lemma KeysCovered(db: Db, prefix: seq<Record>, r: Record, mid: Db, db': Db)
    requires KeptAndKeyed(db, prefix, mid)
    requires db'.bySeq == mid.bySeq || db'.bySeq == mid.bySeq[r.Key() := r.id]
    requires r.Key() in db'.bySeq
    ensures forall i | 0 <= i < |prefix + [r]| :: (prefix + [r])[i].Key() in db'.bySeq
    ensures forall k | k in db'.bySeq && k !in db.bySeq :: exists i :: 0 <= i < |prefix + [r]| && (prefix + [r])[i].Key() == k
  {
    forall k | k in db'.bySeq && k !in db.bySeq
      ensures exists i :: 0 <= i < |prefix + [r]| && (prefix + [r])[i].Key() == k
    {
      if k in mid.bySeq {
        var i :| 0 <= i < |prefix| && prefix[i].Key() == k;
        assert (prefix + [r])[i].Key() == k;
      } else {
        assert (prefix + [r])[|prefix|].Key() == k;
      }
    }
  }

  lemma KeyedStep(db: Db, prefix: seq<Record>, r: Record, mid: Db, db': Db)
    requires KeptAndKeyed(db, prefix, mid) && InsertOne(mid, r) == Ok(db')
    ensures KeptAndKeyed(db, prefix + [r], db')
  {
    hide FirstNew, CountNew, InsertOne;
    InsertOneAdds(mid, r, db');
    LastIsNew(db, prefix, r, mid);
    CountLast(db, prefix, r);
    KeysCovered(db, prefix, r, mid, db');
  }

  lemma SeqStep(mid: Db, r: Record, db': Db)
    requires SeqOk(mid) && InsertOne(mid, r) == Ok(db')
    ensures SeqOk(db')
  {
  }

  lemma StoredStep(db: Db, prefix: seq<Record>, r: Record, mid: Db, db': Db)
    requires KeptAndKeyed(db, prefix, mid) && AllStored(db, prefix, mid)
    requires InsertOne(mid, r) == Ok(db')
    ensures AllStored(db, prefix + [r], db')
  {
    hide FirstNew, CountNew, InsertOne, Numbered, KeptAndKeyed, RowStored;
    forall i | 0 <= i < |prefix + [r]|
      ensures RowStored(db, prefix + [r], i, db')
    {
      if i < |prefix| {
        assert RowStored(db, prefix, i, mid);
        EarlierRowStays(db, prefix, r, i, mid, db');
      } else {
        LastRowStored(db, prefix, r, mid, db');
      }
    }
  }

  lemma EarlierRowStays(db: Db, prefix: seq<Record>, r: Record, i: nat, mid: Db, db': Db)
    requires i < |prefix| && RowStored(db, prefix, i, mid) && InsertOne(mid, r) == Ok(db')
    ensures RowStored(db, prefix + [r], i, db')
  {
    hide FirstNew, CountNew, InsertOne, Numbered;
    InsertOneAdds(mid, r, db');
    PrefixSees(db, prefix, r, i);
  }

  lemma LastRowStored(db: Db, prefix: seq<Record>, r: Record, mid: Db, db': Db)
    requires KeptAndKeyed(db, prefix, mid) && InsertOne(mid, r) == Ok(db')
    ensures RowStored(db, prefix + [r], |prefix|, db')
  {
    hide FirstNew, CountNew, InsertOne;
    InsertOneAdds(mid, r, db');
    LastIsNew(db, prefix, r, mid);
    CountLast(db, prefix, r);
    assert (prefix + [r])[..|prefix|] == prefix;
  }

  lemma OnlyStep(db: Db, prefix: seq<Record>, r: Record, mid: Db, db': Db)
    requires KeptAndKeyed(db, prefix, mid) && OnlyRows(db, prefix, mid)
    requires InsertOne(mid, r) == Ok(db')
    ensures OnlyRows(db, prefix + [r], db')
  {
    hide FirstNew, CountNew, InsertOne;
    InsertOneAdds(mid, r, db');
    LastIsNew(db, prefix, r, mid);
    forall id | id in db'.records && id !in db.records
      ensures exists i :: 0 <= i < |prefix + [r]| && (prefix + [r])[i].id == id && FirstNew(db, prefix + [r], i)
    {
      if id in mid.records {
        var i :| 0 <= i < |prefix| && prefix[i].id == id && FirstNew(db, prefix, i);
        PrefixSees(db, prefix, r, i);
        assert (prefix + [r])[i].id == id;
      } else {
        assert (prefix + [r])[|prefix|].id == id;
      }
    }
  }

  lemma OneMoreKey(before: set<Id>, mid: set<Id>, after: set<Id>, added: set<Id>, id: Id)
    requires before <= mid && mid - before == added && id !in mid && after == mid + {id}
    ensures after - before == added + {id} && |added + {id}| == |added| + 1
  {
  }

  lemma InsertOneKeys(mid: Db, r: Record, db': Db)
    requires InsertOne(mid, r) == Ok(db')
    ensures r.Key() in mid.bySeq ==> db'.records.Keys == mid.records.Keys
    ensures r.Key() !in mid.bySeq ==> r.id !in mid.records && db'.records.Keys == mid.records.Keys + {r.id}
  {
  }

  lemma CountStep(db: Db, prefix: seq<Record>, r: Record, mid: set<Id>, after: set<Id>)
    requires db.records.Keys <= mid && mid - db.records.Keys == NewIds(db, prefix)
    requires |NewIds(db, prefix)| == CountNew(db, prefix)
    requires FirstNew(db, prefix + [r], |prefix|) ==> r.id !in mid && after == mid + {r.id}
    requires !FirstNew(db, prefix + [r], |prefix|) ==> after == mid
    ensures after - db.records.Keys == NewIds(db, prefix + [r])
    ensures |NewIds(db, prefix + [r])| == CountNew(db, prefix + [r])
  {
    hide FirstNew, CountNew, NewIds;
    CountLast(db, prefix, r);
    NewIdsGrow(db, prefix, r);
    if FirstNew(db, prefix + [r], |prefix|) {
      OneMoreKey(db.records.Keys, mid, after, NewIds(db, prefix), r.id);
    }
  }

  lemma KeysKept(db: Db, rows: seq<Record>, db': Db)
    requires KeptAndKeyed(db, rows, db')
    ensures db.records.Keys <= db'.records.Keys
  {
  }

  lemma {:induction false} InsertAllFills(db: Db, rows: seq<Record>)
    requires SeqOk(db) && InsertAll(db, rows).Ok?
    ensures Filled(db, rows, InsertAll(db, rows).value)
  {
    if rows == [] {
      assert NewIds(db, rows) == {};
    } else {
      hide SeqOk, KeptAndKeyed, FirstNew, CountNew, AllStored, OnlyRows, NewIds, InsertOne;
      var prefix, r := rows[..|rows| - 1], rows[|rows| - 1];
      assert rows == prefix + [r];
      InsertAllFills(db, prefix);
      var mid, db' := InsertAll(db, prefix).value, InsertAll(db, rows).value;
      KeyedStep(db, prefix, r, mid, db');
      SeqStep(mid, r, db');
      StoredStep(db, prefix, r, mid, db');
      OnlyStep(db, prefix, r, mid, db');
      KeysKept(db, prefix, mid);
      InsertOneKeys(mid, r, db');
      LastIsNew(db, prefix, r, mid);
      CountStep(db, prefix, r, mid.records.Keys, db'.records.Keys);
    }
  }

  // --- the cursor: the largest version answered is the newest one ----------

  lemma {:induction false} SomeRowIsNewest(db: Db, rows: seq<Record>) returns (i: nat)
    requires 0 < CountNew(db, rows)
    ensures i < |rows| && FirstNew(db, rows, i) && CountNew(db, rows[..i]) == CountNew(db, rows) - 1
  {
    var prefix, r := rows[..|rows| - 1], rows[|rows| - 1];
    assert rows == prefix + [r];
    CountLast(db, prefix, r);
    if FirstNew(db, rows, |prefix|) {
      i := |prefix|;
    } else {
      i := SomeRowIsNewest(db, prefix);
      PrefixSees(db, prefix, r, i);
      assert rows[..i] == prefix[..i];
    }
  }

  lemma {:induction false} UnknownMeansNew(db: Db, rows: seq<Record>)
    requires !AllKnown(db, rows)
    ensures 0 < CountNew(db, rows)
  {
    var prefix, r := rows[..|rows| - 1], rows[|rows| - 1];
    assert rows == prefix + [r];
    CountLast(db, prefix, r);
    if AllKnown(db, prefix) {
      assert r.Key() !in db.bySeq;
      assert forall j | 0 <= j < |prefix| :: prefix[j] in prefix && rows[j] == prefix[j];
      assert FirstNew(db, rows, |prefix|);
    } else {
      UnknownMeansNew(db, prefix);
    }
  }

  lemma {:induction false} MaxChangeCovers(db: Db, rows: seq<Record>, i: nat)
    requires i < |rows|
    ensures Stored(db, rows[i]).changeVersion <= MaxChange(db, rows)
  {
    var n := |rows| - 1;
    if i < n {
      MaxChangeCovers(db, rows[..n], i);
    }
  }

  lemma {:induction false} MaxChangeAtMost(db: Db, rows: seq<Record>, top: int)
    requires 0 <= top && forall i | 0 <= i < |rows| :: Stored(db, rows[i]).changeVersion <= top
    ensures MaxChange(db, rows) <= top
  {
    if rows != [] {
      MaxChangeAtMost(db, rows[..|rows| - 1], top);
    }
  }

  lemma StoredBelow(db: Db, rows: seq<Record>, filled: Db, j: nat)
    requires j < |rows| && KeptAndKeyed(db, rows, filled) && SeqOk(filled)
    ensures Stored(filled, rows[j]).changeVersion <= filled.nextVersion - 1
  {
    assert rows[j].Key() in filled.bySeq && filled.bySeq[rows[j].Key()] in filled.records;
  }

  lemma CursorIsNewest(db: Db, rows: seq<Record>, filled: Db)
    requires Filled(db, rows, filled) && !AllKnown(db, rows) && 1 <= db.nextVersion
    ensures MaxChange(filled, rows) == filled.nextVersion - 1
  {
    hide SeqOk, OnlyRows, NewIds, AllKnown, FirstNew, CountNew;
    UnknownMeansNew(db, rows);
    var i := SomeRowIsNewest(db, rows);
    assert RowStored(db, rows, i, filled);
    MaxChangeCovers(filled, rows, i);
    forall j | 0 <= j < |rows|
      ensures Stored(filled, rows[j]).changeVersion <= filled.nextVersion - 1
    {
      StoredBelow(db, rows, filled, j);
    }
    MaxChangeAtMost(filled, rows, filled.nextVersion - 1);
  }

  // --- the whole transaction -----------------------------------------------

  ghost function OpenBatch(batchId: Id, orderId: Id, count: nat): Batch {
    Batch(batchId, orderId, None, None, BatchPending, count, 0, 0, None, 1)
  }

  // A batch row, the new rows, and the order's cursor at the newest version.
  ghost predicate Replayed(db: Db, orderId: Id, batchId: Id, rows: seq<Record>, db': Db) {
    && orderId in db.orders && batchId !in db.batches
    && db' == db.(records := db'.records, bySeq := db'.bySeq, nextVersion := db'.nextVersion,
                  batches := db.batches[batchId := OpenBatch(batchId, orderId, |rows|)],
                  cursors := db.cursors[orderId := db'.nextVersion - 1])
    && Filled(db.(batches := db'.batches), rows, db'.(cursors := db.cursors))
    && 0 < CountNew(db, rows)
  }

  lemma {:induction false} CountSame(db: Db, other: Db, rows: seq<Record>)
    requires db.bySeq == other.bySeq
    ensures CountNew(db, rows) == CountNew(other, rows)
  {
    if rows != [] {
      CountSame(db, other, rows[..|rows| - 1]);
      assert FirstNew(db, rows, |rows| - 1) == FirstNew(other, rows, |rows| - 1);
    }
  }

  lemma InvGivesSeq(db: Db)
    requires DbInv(db)
    ensures SeqOk(db)
  {
    hide IndexOk, KeysOk, RecordOk, BatchOk;
    forall id | id in db.records
      ensures db.records[id].Key() in db.bySeq && db.bySeq[db.records[id].Key()] == id
      ensures db.records[id].changeVersion < db.nextVersion
    {
      RecordOkGives(db, id);
    }
    IndexGives(db);
  }

  lemma RecordOkGives(db: Db, id: Id)
    requires id in db.records && RecordOk(db, id)
    ensures db.records[id].Key() in db.bySeq && db.bySeq[db.records[id].Key()] == id
    ensures db.records[id].changeVersion < db.nextVersion
  {
    hide Linked;
  }

  lemma IndexGives(db: Db)
    requires IndexOk(db) && KeysOk(db)
    ensures forall k | k in db.bySeq :: db.bySeq[k] in db.records && db.records[db.bySeq[k]].Key() == k
    ensures forall a, b | a in db.records && b in db.records ::
              db.records[a].changeVersion == db.records[b].changeVersion ==> a == b
  {
  }

  lemma SeqIgnoresBatches(db: Db, batches: map<Id, Batch>)
    requires SeqOk(db)
    ensures SeqOk(db.(batches := batches))
  {
  }

  lemma CursorBelow(db: Db, orderId: Id)
    requires DbInv(db) && orderId in db.cursors
    ensures db.cursors[orderId] < db.nextVersion
  {
    if db.cursors[orderId] != 0 {
      assert HasChange(db, Some(orderId), db.cursors[orderId]);
      var w :| w in db.records && db.records[w].changeVersion == db.cursors[orderId];
      assert RecordOk(db, w);
    }
  }

  lemma BackfillReplays(db: Db, orderId: Id, batchId: Id, rows: seq<Record>)
    requires DbInv(db) && Backfill(db, orderId, batchId, rows).Ok? && !AllKnown(db, rows)
    ensures Replayed(db, orderId, batchId, rows, Backfill(db, orderId, batchId, rows).value)
  {
    hide DbInv, SeqOk, Filled, CountNew, AllKnown, InsertAll, MaxChange, NewIds;
    var withBatch := db.(batches := db.batches[batchId := OpenBatch(batchId, orderId, |rows|)]);
    assert db.CreateSyncBatch(Batch(batchId, orderId, None, None, BatchPending, |rows|, 0, 0, None, 1)) == Ok(withBatch);
    var filled := InsertAll(withBatch, rows).value;
    InvGivesSeq(db);
    SeqIgnoresBatches(db, withBatch.batches);
    InsertAllFills(withBatch, rows);
    KnownSame(db, withBatch, rows);
    NextPositive(db);
    CursorIsNewest(withBatch, rows, filled);
    UnknownMeansNew(db, rows);
    FilledGrows(withBatch, rows, filled);
    if orderId in db.cursors {
      CursorBelow(db, orderId);
    }
    var db' := Backfill(db, orderId, batchId, rows).value;
    assert db'.(cursors := db.cursors) == filled;
  }

  lemma KnownSame(db: Db, other: Db, rows: seq<Record>)
    requires db.bySeq == other.bySeq
    ensures AllKnown(db, rows) == AllKnown(other, rows)
  {
  }

  lemma NextPositive(db: Db)
    requires DbInv(db)
    ensures 1 <= db.nextVersion
  {
  }

  lemma FilledGrows(db: Db, rows: seq<Record>, db': Db)
    requires Filled(db, rows, db')
    ensures db.nextVersion <= db'.nextVersion
    ensures db' == db.(records := db'.records, bySeq := db'.bySeq, nextVersion := db'.nextVersion)
  {
  }

  // A row the transaction added: as built, numbered from the counter.
  lemma NewRowShape(db: Db, orderId: Id, batchId: Id, rows: seq<Record>, db': Db, id: Id) returns (i: nat)
    requires Replayed(db, orderId, batchId, rows, db') && ForBatch(rows, orderId, batchId)
    requires id in db'.records && id !in db.records
    ensures i < |rows| && rows[i].id == id && FirstNew(db, rows, i)
    ensures db'.records[id] == rows[i].(changeVersion := db'.records[id].changeVersion)
    ensures db.nextVersion <= db'.records[id].changeVersion < db'.nextVersion
    ensures db'.records[id].Key() in db'.bySeq && db'.bySeq[db'.records[id].Key()] == id
  {
    hide NewIds, SeqOk, CountNew;
    var before := db.(batches := db'.batches);
    i :| 0 <= i < |rows| && rows[i].id == id && FirstNew(before, rows, i);
    assert RowStored(before, rows, i, db'.(cursors := db.cursors));
    NumbersBelow(before, rows, i);
  }

  lemma NumbersBelow(db: Db, rows: seq<Record>, i: nat)
    requires i < |rows| && FirstNew(db, rows, i)
    ensures CountNew(db, rows[..i]) < CountNew(db, rows)
  {
    assert rows[..|rows|] == rows;
    CountNewMonotone(db, rows, i, |rows|);
  }

  lemma OldRowKept(db: Db, orderId: Id, batchId: Id, rows: seq<Record>, db': Db, id: Id)
    requires Replayed(db, orderId, batchId, rows, db') && id in db.records
    ensures id in db'.records && db'.records[id] == db.records[id]
  {
  }

  lemma ReplayFrame(db: Db, orderId: Id, batchId: Id, rows: seq<Record>, db': Db)
    requires Replayed(db, orderId, batchId, rows, db')
    ensures db'.orders == db.orders && db'.manuals == db.manuals && db'.manualOf == db.manualOf
    ensures db'.workHours == db.workHours && db'.rulings == db.rulings
    ensures batchId !in db.batches && db'.batches == db.batches[batchId := OpenBatch(batchId, orderId, |rows|)]
    ensures orderId in db.orders && db'.cursors == db.cursors[orderId := db'.nextVersion - 1]
  {
  }

  lemma ReplayRecordsEvolve(db: Db, orderId: Id, batchId: Id, rows: seq<Record>, db': Db)
    requires Replayed(db, orderId, batchId, rows, db') && ForBatch(rows, orderId, batchId)
    ensures RecordsEvolve(db, db') && MovesAlongEdges(db, db')
  {
    hide Filled, CountNew, Replayed;
    forall id | id in db.records
      ensures id in db'.records && db'.records[id] == db.records[id]
    {
      OldRowKept(db, orderId, batchId, rows, db', id);
    }
    ReplayFrame(db, orderId, batchId, rows, db');
    forall id | id in db'.records && id !in db.records
      ensures db.nextVersion <= db'.records[id].changeVersion && db'.records[id].batchId !in db.batches
    {
      var i := NewRowShape(db, orderId, batchId, rows, db', id);
    }
    GrowsBy(db, orderId, batchId, rows, db');
  }

  lemma ReplayEvolves(db: Db, orderId: Id, batchId: Id, rows: seq<Record>, db': Db)
    requires Replayed(db, orderId, batchId, rows, db') && ForBatch(rows, orderId, batchId)
    ensures Evolves(db, db') && MovesAlongEdges(db, db')
  {
    hide Replayed, RecordsEvolve, MovesAlongEdges, ForBatch;
    ReplayRecordsEvolve(db, orderId, batchId, rows, db');
    ReplayFrame(db, orderId, batchId, rows, db');
  }

  lemma GrowsBy(db: Db, orderId: Id, batchId: Id, rows: seq<Record>, db': Db)
    requires Replayed(db, orderId, batchId, rows, db')
    ensures db.nextVersion < db'.nextVersion
    ensures db'.nextVersion == db.nextVersion + CountNew(db, rows)
    ensures SeqOk(db')
  {
    CountSame(db, db.(batches := db'.batches), rows);
  }

  lemma ReplayKeepsRecord(db: Db, orderId: Id, batchId: Id, rows: seq<Record>, db': Db, id: Id)
    requires Replayed(db, orderId, batchId, rows, db') && ForBatch(rows, orderId, batchId)
    requires id in db.records && RecordOk(db, id)
    ensures id in db'.records && RecordOk(db', id)
  {
    hide CountNew, FirstNew, NewIds, Replayed, ForBatch;
    OldRowKept(db, orderId, batchId, rows, db', id);
    ReplayFrame(db, orderId, batchId, rows, db');
    GrowsBy(db, orderId, batchId, rows, db');
    assert Linked(db', db'.records[id]) by { assert Linked(db, db.records[id]); }
  }

  lemma NewRecordLinked(db: Db, r: Record)
    requires KeysOk(db) && r.id !in db.records
    ensures db.ManualByRecord(r.id).None? && RulingFor(db, r.id).None?
  {
  }

  lemma ReplayAddsRecord(db: Db, orderId: Id, batchId: Id, rows: seq<Record>, db': Db, id: Id)
    requires Replayed(db, orderId, batchId, rows, db') && ForBatch(rows, orderId, batchId)
    requires KeysOk(db) && 1 <= db.nextVersion
    requires id in db'.records && id !in db.records
    ensures RecordOk(db', id)
  {
    hide CountNew, FirstNew, Filled, KeysOk;
    var i := NewRowShape(db, orderId, batchId, rows, db', id);
    NewRecordLinked(db, rows[i]);
    assert db'.ManualByRecord(id) == db.ManualByRecord(id) && RulingFor(db', id) == RulingFor(db, id);
  }

  lemma ReplayKeepsIndex(db: Db, orderId: Id, batchId: Id, rows: seq<Record>, db': Db)
    requires Replayed(db, orderId, batchId, rows, db') && ForBatch(rows, orderId, batchId)
    requires IndexOk(db)
    ensures IndexOk(db')
  {
    hide FirstNew, Filled;
    GrowsBy(db, orderId, batchId, rows, db');
    NewestStored(db, orderId, batchId, rows, db');
    forall o | o in db'.cursors
      ensures db'.cursors[o] == 0 || HasChange(db', Some(o), db'.cursors[o])
    {
      if o != orderId && db.cursors[o] != 0 {
        var w :| w in db.records && db.records[w].changeVersion == db.cursors[o] && o == db.records[w].orderId;
        OldRowKept(db, orderId, batchId, rows, db', w);
      }
    }
  }

  lemma NewestStored(db: Db, orderId: Id, batchId: Id, rows: seq<Record>, db': Db)
    requires Replayed(db, orderId, batchId, rows, db') && ForBatch(rows, orderId, batchId)
    ensures HasChange(db', Some(orderId), db'.nextVersion - 1) && HasChange(db', None, db'.nextVersion - 1)
  {
    hide SeqOk, OnlyRows, NewIds;
    var before := db.(batches := db'.batches);
    CountSame(db, before, rows);
    var i := SomeRowIsNewest(before, rows);
    assert RowStored(before, rows, i, db'.(cursors := db.cursors));
    assert db'.records[rows[i].id].changeVersion == db'.nextVersion - 1;
  }

  lemma ReplayKeepsKeys(db: Db, orderId: Id, batchId: Id, rows: seq<Record>, db': Db)
    requires Replayed(db, orderId, batchId, rows, db') && KeysOk(db)
    ensures KeysOk(db')
  {
    hide CountNew, FirstNew, AllStored, OnlyRows, NewIds;
    GrowsBy(db, orderId, batchId, rows, db');
  }

  lemma ReplayKeepsBatches(db: Db, orderId: Id, batchId: Id, rows: seq<Record>, db': Db)
    requires Replayed(db, orderId, batchId, rows, db') && RecordsEvolve(db, db')
    requires forall b | b in db.batches :: BatchOk(db, b)
    ensures forall b | b in db'.batches :: BatchOk(db', b)
  {
    hide Filled, CountNew;
    forall b | b in db'.batches
      ensures BatchOk(db', b)
    {
      if b in db.batches {
        assert BatchOk(db, b);
        RowsFixed(db, db', b);
      }
    }
  }

  lemma ReplayGood(db: Db, orderId: Id, batchId: Id, rows: seq<Record>, db': Db)
    requires DbInv(db) && Replayed(db, orderId, batchId, rows, db') && ForBatch(rows, orderId, batchId)
    ensures GoodStep(db, db')
  {
    hide Replayed, KeysOk, RecordOk, BatchOk, MovesAlongEdges;
    ReplayEvolves(db, orderId, batchId, rows, db');
    forall id | id in db'.records
      ensures RecordOk(db', id)
    {
      if id in db.records {
        ReplayKeepsRecord(db, orderId, batchId, rows, db', id);
      } else {
        ReplayAddsRecord(db, orderId, batchId, rows, db', id);
      }
    }
    ReplayKeepsIndex(db, orderId, batchId, rows, db');
    ReplayKeepsKeys(db, orderId, batchId, rows, db');
    ReplayKeepsBatches(db, orderId, batchId, rows, db');
  }

  // The rows of the new batch are exactly the newly stored ones.
  lemma BatchRows(db: Db, orderId: Id, batchId: Id, rows: seq<Record>, db': Db)
    requires DbInv(db) && Replayed(db, orderId, batchId, rows, db') && ForBatch(rows, orderId, batchId)
    ensures |db'.RowsOf(batchId)| == CountNew(db, rows)
  {
    hide FirstNew, CountNew, KeysOk, IndexOk, Replayed, ForBatch, Linked;
    forall id | id in db'.records
      ensures db'.records[id].batchId == batchId <==> id !in db.records
    {
      NewRowsAreTheBatch(db, orderId, batchId, rows, db', id);
    }
    assert db'.RowsOf(batchId) == db'.records.Keys - db.records.Keys;
    CountOfNewKeys(db, orderId, batchId, rows, db');
  }

  lemma NewRowsAreTheBatch(db: Db, orderId: Id, batchId: Id, rows: seq<Record>, db': Db, id: Id)
    requires DbInv(db) && Replayed(db, orderId, batchId, rows, db') && ForBatch(rows, orderId, batchId)
    requires id in db'.records
    ensures db'.records[id].batchId == batchId <==> id !in db.records
  {
    hide FirstNew, CountNew, KeysOk, IndexOk, Replayed, Linked;
    ReplayFrame(db, orderId, batchId, rows, db');
    if id in db.records {
      assert RecordOk(db, id);
      OldRowKept(db, orderId, batchId, rows, db', id);
    } else {
      var i := NewRowShape(db, orderId, batchId, rows, db', id);
    }
  }

  lemma CountOfNewKeys(db: Db, orderId: Id, batchId: Id, rows: seq<Record>, db': Db)
    requires Replayed(db, orderId, batchId, rows, db')
    ensures |db'.records.Keys - db.records.Keys| == CountNew(db, rows)
  {
    CountSame(db, db.(batches := db'.batches), rows);
  }
}
