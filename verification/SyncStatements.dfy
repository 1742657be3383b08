// The single statements that touch no record: batches, work hours, registry.
module SyncStatements {
  import opened Common
  import opened Status
  import opened SyncDb
  import opened SyncInv
  import opened SyncTx

  // --- sync_batches --------------------------------------------------------

  // Batch rows moved on: none lost, each legally rewritten or as it was, and
  // none newly completed without its rows settled and counted.
  ghost predicate BatchesMoved(db: Db, bs: map<Id, Batch>) {
    && bs.Keys == db.batches.Keys
    && forall b | b in bs ::
         BatchEvolves(db.batches[b], bs[b])
         && (bs[b].status == BatchCompleted ==>
               bs[b] == db.batches[b] || (Settled(db, b) && bs[b].processedCount == |db.RowsOf(b)|))
  }

  lemma BatchesMovedBatchOk(db: Db, bs: map<Id, Batch>)
    requires BatchesMoved(db, bs) && forall b | b in db.batches :: BatchOk(db, b)
    ensures forall b | b in bs :: BatchOk(db.(batches := bs), b)
  {
    var db' := db.(batches := bs);
    forall b | b in bs
      ensures BatchOk(db', b)
    {
      assert BatchOk(db, b);
      assert db'.RowsOf(b) == db.RowsOf(b);
      assert Settled(db', b) == Settled(db, b);
    }
  }

  lemma BatchesMovedEvolves(db: Db, bs: map<Id, Batch>)
    requires BatchesMoved(db, bs)
    ensures Evolves(db, db.(batches := bs)) && MovesAlongEdges(db, db.(batches := bs))
  {
  }

  lemma BatchesMovedRecordOk(db: Db, bs: map<Id, Batch>)
    requires bs.Keys == db.batches.Keys && forall id | id in db.records :: RecordOk(db, id)
    ensures forall id | id in db.records :: RecordOk(db.(batches := bs), id)
  {
    var db' := db.(batches := bs);
    forall id | id in db.records
      ensures RecordOk(db', id)
    {
      assert RecordOk(db, id);
      assert Linked(db', db.records[id]) by { assert Linked(db, db.records[id]); }
    }
  }

  lemma BatchesMovedIndex(db: Db, bs: map<Id, Batch>)
    requires IndexOk(db) && KeysOk(db)
    ensures IndexOk(db.(batches := bs)) && KeysOk(db.(batches := bs))
  {
    var db' := db.(batches := bs);
    forall o: Option<Id>, v | HasChange(db, o, v)
      ensures HasChange(db', o, v)
    {
    }
  }

  lemma BatchesMovedGood(db: Db, bs: map<Id, Batch>)
    requires DbInv(db) && BatchesMoved(db, bs)
    ensures GoodStep(db, db.(batches := bs))
  {
    hide RecordOk, BatchOk, IndexOk, KeysOk, Evolves, MovesAlongEdges;
    BatchesMovedBatchOk(db, bs);
    BatchesMovedEvolves(db, bs);
    BatchesMovedRecordOk(db, bs);
    BatchesMovedIndex(db, bs);
  }

  // One batch row rewritten, not to completed.
  lemma OneBatchMoved(db: Db, b: Id, b': Batch)
    requires b in db.batches && BatchEvolves(db.batches[b], b')
    requires b'.status != BatchCompleted || (Settled(db, b) && b'.processedCount == |db.RowsOf(b)|)
    ensures BatchesMoved(db, db.batches[b := b'])
  {
  }

  // No row but b's is rewritten, in any table.
  ghost predicate RewritesBatch(db: Db, db': Db, b: Id) {
    b in db.batches && b in db'.batches && db' == db.(batches := db.batches[b := db'.batches[b]])
  }

  lemma ClaimGood(db: Db, b: Id, owner: Id, until: int)
    requires DbInv(db) && db.ClaimLease(b, owner, until).Ok?
    ensures GoodStep(db, db.ClaimLease(b, owner, until).value)
    ensures b in db.batches && db.batches[b].status == BatchPending
    ensures var db' := db.ClaimLease(b, owner, until).value;
            b in db'.batches && db'.batches[b].status == BatchLeasing && RewritesBatch(db, db', b)
  {
    hide DbInv, GoodStep;
    OneBatchMoved(db, b, db.ClaimLease(b, owner, until).value.batches[b]);
    BatchesMovedGood(db, db.ClaimLease(b, owner, until).value.batches);
  }

  lemma ReleaseGood(db: Db, b: Id)
    requires DbInv(db) && db.ReleaseLease(b).Ok?
    ensures GoodStep(db, db.ReleaseLease(b).value)
  {
    hide DbInv, GoodStep;
    OneBatchMoved(db, b, Db.Unleased(db.batches[b]));
    BatchesMovedGood(db, db.ReleaseLease(b).value.batches);
  }

  lemma ReclaimGood(db: Db, now: int)
    requires DbInv(db)
    ensures GoodStep(db, db.ReclaimExpired(now))
  {
    hide DbInv, GoodStep;
    BatchesMovedGood(db, db.ReclaimExpired(now).batches);
  }

  // Completion is legal once every row of the batch is settled and counted.
  lemma ProgressGood(db: Db, b: Id, processed: int, version: int)
    requires DbInv(db) && Settled(db, b) && processed == |db.RowsOf(b)|
    requires db.UpdateBatchProgress(b, processed, BatchCompleted, version).Ok?
    ensures GoodStep(db, db.UpdateBatchProgress(b, processed, BatchCompleted, version).value)
  {
    hide DbInv, GoodStep;
    var db' := db.UpdateBatchProgress(b, processed, BatchCompleted, version).value;
    OneBatchMoved(db, b, db'.batches[b]);
    BatchesMovedGood(db, db'.batches);
  }

  lemma BumpGood(db: Db, b: Id, nextRetry: int)
    requires DbInv(db)
    ensures GoodStep(db, db.BumpBatchRetry(b, nextRetry))
    ensures if b in db.batches && db.batches[b].status in {BatchProcessing, BatchFailed, BatchLeasing}
            then RewritesBatch(db, db.BumpBatchRetry(b, nextRetry), b)
            else db.BumpBatchRetry(b, nextRetry) == db
  {
    hide DbInv, GoodStep;
    var db' := db.BumpBatchRetry(b, nextRetry);
    if db' == db {
      StandsStill(db);
    } else {
      OneBatchMoved(db, b, db'.batches[b]);
      BatchesMovedGood(db, db'.batches);
    }
  }

  lemma PermanentGood(db: Db, b: Id)
    requires DbInv(db) && db.MarkBatchPermanent(b).Ok?
    ensures GoodStep(db, db.MarkBatchPermanent(b).value)
  {
    hide DbInv, GoodStep;
    OneBatchMoved(db, b, db.MarkBatchPermanent(b).value.batches[b]);
    BatchesMovedGood(db, db.MarkBatchPermanent(b).value.batches);
  }

  // --- customer_work_hours and the registry --------------------------------

  // Work hours keep their ids, and orders their windows.
  ghost predicate RegistryMoved(db: Db, db': Db) {
    && db' == db.(orders := db'.orders, devices := db'.devices, persons := db'.persons, workHours := db'.workHours)
    && (forall k | k in db.workHours :: k in db'.workHours && HoursEvolve(db.workHours[k], db'.workHours[k]))
    && (forall o | o in db.orders :: o in db'.orders && db'.orders[o].windowHours == db.orders[o].windowHours)
  }

  lemma RegistryKeepsRecord(db: Db, db': Db, k: Id)
    requires RegistryMoved(db, db') && k in db.records && RecordOk(db, k)
    ensures RecordOk(db', k)
  {
    assert Linked(db', db'.records[k]) by { assert Linked(db, db.records[k]); }
  }

  lemma RegistryEvolves(db: Db, db': Db)
    requires RegistryMoved(db, db') && KeysOk(db)
    ensures Evolves(db, db') && MovesAlongEdges(db, db') && KeysOk(db')
  {
  }

  lemma RegistryGood(db: Db, db': Db)
    requires DbInv(db) && RegistryMoved(db, db')
    ensures GoodStep(db, db')
  {
    hide RecordOk, BatchOk, IndexOk, KeysOk, Evolves, MovesAlongEdges;
    forall k | k in db.records
      ensures RecordOk(db', k)
    {
      RegistryKeepsRecord(db, db', k);
    }
    RegistryEvolves(db, db');
    SameRecordsGood(db, db');
  }

  lemma HoursPutGood(db: Db, key: (Id, int), h: WorkHour)
    requires DbInv(db) && (key in db.workHours ==> HoursEvolve(db.workHours[key], h))
    ensures GoodStep(db, db.(workHours := db.workHours[key := h]))
  {
    hide DbInv, GoodStep;
    RegistryGood(db, db.(workHours := db.workHours[key := h]));
  }

  // What an upsert writes: a new row, or new hours on the stored one.
  lemma UpsertWrites(db: Db, id: Id, deviceId: Id, day: int, hours: real) returns (h: WorkHour)
    requires db.UpsertWorkHour(id, deviceId, day, hours).Ok?
    ensures (deviceId, day) in db.workHours ==> HoursEvolve(db.workHours[(deviceId, day)], h)
    ensures db.UpsertWorkHour(id, deviceId, day, hours).value == db.(workHours := db.workHours[(deviceId, day) := h])
  {
    var key := (deviceId, day);
    h := if key in db.workHours then db.workHours[key].(hours := hours, version := db.workHours[key].version + 1)
         else WorkHour(id, hours, 1);
  }

  lemma UpsertHoursGood(db: Db, id: Id, deviceId: Id, day: int, hours: real)
    requires DbInv(db) && db.UpsertWorkHour(id, deviceId, day, hours).Ok?
    ensures GoodStep(db, db.UpsertWorkHour(id, deviceId, day, hours).value)
  {
    hide DbInv, GoodStep;
    var h := UpsertWrites(db, id, deviceId, day, hours);
    HoursPutGood(db, (deviceId, day), h);
  }
}
