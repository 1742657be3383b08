// The store as an object whose tables the statements update in place. Each
// method is one SQL statement, proved against the statement's function on Db.
module SyncStore {
  import opened Common
  import opened Status
  import opened SyncDb

  function FailureOf<T>(r: Result<T>): Option<Error> {
    if r.Ok? then None else Some(r.error)
  }

  function Kept(db: Db, r: Result<Db>): Db {
    if r.Ok? then r.value else db
  }

  class Store {
    var orders: map<Id, Order>
    var devices: set<Id>
    var persons: set<Id>
    var records: map<Id, Record>
    var bySeq: map<(Id, int), Id>
    var batches: map<Id, Batch>
    var manuals: map<Id, Manual>
    var manualOf: map<Id, Id>
    var workHours: map<(Id, int), WorkHour>
    var rulings: map<Id, Ruling>
    var nextVersion: int
    var cursors: map<Id, int>

    function Tables(): Db
      reads this
    {
      Db(orders, devices, persons, records, bySeq, batches, manuals, manualOf, workHours, rulings, nextVersion, cursors)
    }

    constructor ()
      ensures Tables() == Db(map[], {}, {}, map[], map[], map[], map[], map[], map[], map[], 1, map[])
    {
      orders, devices, persons, records, bySeq, batches := map[], {}, {}, map[], map[], map[];
      manuals, manualOf, workHours, rulings, nextVersion, cursors := map[], map[], map[], map[], 1, map[];
    }

    // Rollback: the tables a transaction began with.
    method Restore(db: Db)
      modifies this
      ensures Tables() == db
    {
      orders, devices, persons := db.orders, db.devices, db.persons;
      records, bySeq, batches := db.records, db.bySeq, db.batches;
      manuals, manualOf, workHours := db.manuals, db.manualOf, db.workHours;
      rulings, nextVersion, cursors := db.rulings, db.nextVersion, db.cursors;
    }

    method UpdateRecordStatus(id: Id, src: RecordStatus, dst: RecordStatus, version: int) returns (failure: Option<Error>)
      modifies this`records
      ensures Tables() == Kept(old(Tables()), old(Tables()).UpdateRecordStatus(id, src, dst, version))
      ensures failure == FailureOf(old(Tables()).UpdateRecordStatus(id, src, dst, version))
    {
      if id !in records || records[id].version != version || records[id].status != src {
        return Some(VersionConflict);
      }
      records := records[id := records[id].(status := dst, version := version + 1)];
      return None;
    }

    method SetConflict(id: Id, workHourId: Id, version: int) returns (failure: Option<Error>)
      modifies this`records
      ensures Tables() == Kept(old(Tables()), old(Tables()).SetConflict(id, workHourId, version))
      ensures failure == FailureOf(old(Tables()).SetConflict(id, workHourId, version))
    {
      if id !in records || records[id].version != version {
        return Some(VersionConflict);
      }
      records := records[id := records[id].(status := Conflict, conflictId := Some(workHourId), version := version + 1)];
      return None;
    }

    method SetManual(id: Id, manualId: Id, version: int) returns (failure: Option<Error>)
      modifies this`records
      ensures Tables() == Kept(old(Tables()), old(Tables()).SetManual(id, manualId, version))
      ensures failure == FailureOf(old(Tables()).SetManual(id, manualId, version))
    {
      if id !in records || records[id].version != version {
        return Some(VersionConflict);
      }
      records := records[id := records[id].(status := AwaitingReview, manualId := Some(manualId), version := version + 1)];
      return None;
    }

    method CorrectHours(id: Id, hours: real, version: int) returns (failure: Option<Error>)
      modifies this`records
      ensures Tables() == Kept(old(Tables()), old(Tables()).CorrectHours(id, hours, version))
      ensures failure == FailureOf(old(Tables()).CorrectHours(id, hours, version))
    {
      if id !in records || records[id].version != version {
        return Some(VersionConflict);
      }
      records := records[id := records[id].(hours := hours, version := version + 1)];
      return None;
    }

    method NextChangeVersion() returns (v: int)
      modifies this`nextVersion
      ensures (v, Tables()) == old(Tables()).NextChangeVersion()
    {
      v := nextVersion;
      nextVersion := nextVersion + 1;
    }

    method InsertRecord(r: Record) returns (failure: Option<Error>)
      modifies this`records, this`bySeq
      ensures Tables() == Kept(old(Tables()), old(Tables()).InsertRecord(r))
      ensures failure == FailureOf(old(Tables()).InsertRecord(r))
    {
      if r.id in records {
        return Some(AlreadyExists);
      }
      if r.orderId !in orders || r.deviceId !in devices || r.responsibleId !in persons {
        return Some(Driver);
      }
      records, bySeq := records[r.id := r], bySeq[r.Key() := r.id];
      return None;
    }

    method CreateSyncBatch(b: Batch) returns (failure: Option<Error>)
      modifies this`batches
      ensures Tables() == Kept(old(Tables()), old(Tables()).CreateSyncBatch(b))
      ensures failure == FailureOf(old(Tables()).CreateSyncBatch(b))
    {
      if b.id in batches {
        return Some(AlreadyExists);
      }
      if b.orderId !in orders {
        return Some(Driver);
      }
      batches := batches[b.id := b.(version := 1)];
      return None;
    }

    method ClaimLease(id: Id, owner: Id, leaseUntil: int) returns (failure: Option<Error>)
      modifies this`batches
      ensures Tables() == Kept(old(Tables()), old(Tables()).ClaimLease(id, owner, leaseUntil))
      ensures failure == FailureOf(old(Tables()).ClaimLease(id, owner, leaseUntil))
    {
      if id !in batches || batches[id].status != BatchPending {
        return Some(LeaseHeld);
      }
      batches := batches[id := batches[id].(
        leaseOwner := Some(owner), leaseUntil := Some(leaseUntil), status := BatchLeasing,
        version := batches[id].version + 1)];
      return None;
    }

    method ReleaseLease(id: Id) returns (failure: Option<Error>)
      modifies this`batches
      ensures Tables() == Kept(old(Tables()), old(Tables()).ReleaseLease(id))
      ensures failure == FailureOf(old(Tables()).ReleaseLease(id))
    {
      if id !in batches || batches[id].status != BatchLeasing {
        return Some(LeaseHeld);
      }
      batches := batches[id := Db.Unleased(batches[id])];
      return None;
    }

    method ReclaimExpired(now: int)
      modifies this`batches
      ensures Tables() == old(Tables()).ReclaimExpired(now)
    {
      hide Db.LeaseExpired, Db.Unleased;
      var pending := batches.Keys;
      var before := batches;
      while pending != {}
        invariant pending <= before.Keys && batches.Keys == before.Keys
        invariant forall b | b in before ::
                    batches[b] == if b !in pending && Db.LeaseExpired(before[b], now) then Db.Unleased(before[b]) else before[b]
        decreases pending
      {
        var b :| b in pending;
        if Db.LeaseExpired(batches[b], now) {
          batches := batches[b := Db.Unleased(batches[b])];
        }
        pending := pending - {b};
      }
    }

    method UpdateBatchProgress(id: Id, processed: int, status: BatchStatus, version: int) returns (failure: Option<Error>)
      modifies this`batches
      ensures Tables() == Kept(old(Tables()), old(Tables()).UpdateBatchProgress(id, processed, status, version))
      ensures failure == FailureOf(old(Tables()).UpdateBatchProgress(id, processed, status, version))
    {
      if id !in batches || batches[id].version != version {
        return Some(VersionConflict);
      }
      batches := batches[id := batches[id].(processedCount := processed, status := status, version := version + 1)];
      return None;
    }

    method BumpBatchRetry(id: Id, nextRetry: int)
      modifies this`batches
      ensures Tables() == old(Tables()).BumpBatchRetry(id, nextRetry)
    {
      if id in batches && batches[id].status in {BatchProcessing, BatchFailed, BatchLeasing} {
        batches := batches[id := batches[id].(
          status := BatchFailed, retryCount := batches[id].retryCount + 1,
          nextRetryAt := Some(nextRetry), version := batches[id].version + 1)];
      }
    }

    method MarkBatchPermanent(id: Id) returns (failure: Option<Error>)
      modifies this`batches
      ensures Tables() == Kept(old(Tables()), old(Tables()).MarkBatchPermanent(id))
      ensures failure == FailureOf(old(Tables()).MarkBatchPermanent(id))
    {
      if id !in batches {
        return Some(VersionConflict);
      }
      batches := batches[id := batches[id].(
        status := BatchPermanent, nextRetryAt := None, version := batches[id].version + 1)];
      return None;
    }

    method CreateManual(id: Id, recordId: Id, orderId: Id) returns (failure: Option<Error>)
      modifies this`manuals, this`manualOf
      ensures Tables() == Kept(old(Tables()), old(Tables()).CreateManual(id, recordId, orderId))
      ensures failure == FailureOf(old(Tables()).CreateManual(id, recordId, orderId))
    {
      if id in manuals || recordId in manualOf {
        return Some(AlreadyExists);
      }
      if recordId !in records || orderId !in orders {
        return Some(Driver);
      }
      manuals := manuals[id := Manual(id, recordId, orderId, false, None, None, 1)];
      manualOf := manualOf[recordId := id];
      return None;
    }

    method ReviewManual(id: Id, reviewer: Id, decision: Decision, version: int) returns (failure: Option<Error>)
      modifies this`manuals
      ensures Tables() == Kept(old(Tables()), old(Tables()).ReviewManual(id, reviewer, decision, version))
      ensures failure == FailureOf(old(Tables()).ReviewManual(id, reviewer, decision, version))
    {
      if id !in manuals || manuals[id].version != version {
        return Some(VersionConflict);
      }
      manuals := manuals[id := manuals[id].(
        reviewed := true, reviewer := Some(reviewer), decision := Some(decision), version := version + 1)];
      return None;
    }

    method UpsertWorkHour(id: Id, deviceId: Id, day: int, hours: real) returns (failure: Option<Error>)
      modifies this`workHours
      ensures Tables() == Kept(old(Tables()), old(Tables()).UpsertWorkHour(id, deviceId, day, hours))
      ensures failure == FailureOf(old(Tables()).UpsertWorkHour(id, deviceId, day, hours))
    {
      var key := (deviceId, day);
      if deviceId !in devices {
        return Some(Driver);
      }
      if key in workHours {
        workHours := workHours[key := workHours[key].(hours := hours, version := workHours[key].version + 1)];
        return None;
      }
      if Tables().HoursIdTaken(id) {
        return Some(AlreadyExists);
      }
      workHours := workHours[key := WorkHour(id, hours, 1)];
      return None;
    }

    method CreateRuling(a: Ruling) returns (failure: Option<Error>)
      modifies this`rulings
      ensures Tables() == Kept(old(Tables()), old(Tables()).CreateRuling(a))
      ensures failure == FailureOf(old(Tables()).CreateRuling(a))
    {
      if a.recordId in rulings || Tables().RulingIdTaken(a.id) {
        return Some(AlreadyExists);
      }
      if a.recordId !in records || a.adjudicatorId !in persons || !Tables().HoursIdTaken(a.workHourId) {
        return Some(Driver);
      }
      rulings := rulings[a.recordId := a];
      return None;
    }

    method UpsertBackfill(orderId: Id, changeVersion: int) returns (failure: Option<Error>)
      modifies this`cursors
      ensures Tables() == Kept(old(Tables()), old(Tables()).UpsertBackfill(orderId, changeVersion))
      ensures failure == FailureOf(old(Tables()).UpsertBackfill(orderId, changeVersion))
    {
      if orderId !in orders {
        return Some(Driver);
      }
      cursors := cursors[orderId := if orderId in cursors then Max(changeVersion, cursors[orderId]) else changeVersion];
      return None;
    }
  }
}
