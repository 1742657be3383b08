// The calls of the sync, adjudication and reconciliation services as they are
// written: statements on the store, loops inside transactions, rollback on
// error. Each call is proved to be the program of its worker in SyncMachine, so
// what holds of every interleaving holds of the calls.
module SyncService {
  import opened Common
  import opened Status
  import opened SyncDb
  import opened SyncStore
  import opened SyncMachine
  import opened SyncAlone
  import BatchCalls = SyncBatchCalls
  import Calls = SyncCalls
  import ReplayCalls = BackfillCalls
  import Inv = SyncInv
  import ReplayOrder
  import Window

  // --- loops inside transactions --------------------------------------------

  lemma {:induction false} ResolveAllFailsOnce(db: Db, work: seq<Resolution>, n: nat)
    requires n <= |work| && ResolveAll(db, work[..n]).Err?
    ensures ResolveAll(db, work) == ResolveAll(db, work[..n])
  {
    if n < |work| {
      assert work[..|work| - 1][..n] == work[..n];
      ResolveAllFailsOnce(db, work[..|work| - 1], n);
    } else {
      assert work[..n] == work;
    }
  }

  lemma ResolveAllNext(db: Db, work: seq<Resolution>, n: nat, mid: Db)
    requires n < |work| && ResolveAll(db, work[..n]) == Ok(mid)
    ensures ResolveAll(db, work[..n + 1]) == Resolve(mid, work[n].row, work[n].now, work[n].freshId)
  {
    assert work[..n + 1][..n] == work[..n];
  }

  lemma {:induction false} InsertAllFailsOnce(db: Db, rows: seq<Record>, n: nat)
    requires n <= |rows| && InsertAll(db, rows[..n]).Err?
    ensures InsertAll(db, rows) == InsertAll(db, rows[..n])
  {
    if n < |rows| {
      assert rows[..|rows| - 1][..n] == rows[..n];
      InsertAllFailsOnce(db, rows[..|rows| - 1], n);
    } else {
      assert rows[..n] == rows;
    }
  }

  lemma InsertAllNext(db: Db, rows: seq<Record>, n: nat, mid: Db)
    requires n < |rows| && InsertAll(db, rows[..n]) == Ok(mid)
    ensures InsertAll(db, rows[..n + 1]) == InsertOne(mid, rows[n])
  {
    assert rows[..n + 1][..n] == rows[..n];
  }

  // The index on (order_id, client_sequence) points at rows carrying the key.
  ghost predicate Indexed(db: Db) {
    forall k | k in db.bySeq :: db.bySeq[k] in db.records && db.records[db.bySeq[k]].Key() == k
  }

  // Storing one more row moves no stored row and keeps the index sound.
  lemma InsertOneKeepsStored(db: Db, r: Record, db': Db)
    requires Indexed(db) && InsertOne(db, r) == Ok(db')
    ensures Indexed(db') && r.Key() in db'.bySeq
    ensures forall q: Record | q.Key() in db.bySeq :: q.Key() in db'.bySeq && Stored(db', q) == Stored(db, q)
  {
  }

  lemma MaxChangeNext(db: Db, rows: seq<Record>, n: nat)
    requires n < |rows|
    ensures MaxChange(db, rows[..n + 1]) == Max(MaxChange(db, rows[..n]), Stored(db, rows[n]).changeVersion)
  {
    assert rows[..n + 1][..n] == rows[..n];
  }

  // Each row's answer is its stored form.
  ghost predicate AnsweredBy(db: Db, rows: seq<Record>, rs: seq<Record>) {
    |rs| == |rows| && forall i | 0 <= i < |rows| :: rs[i] == Stored(db, rows[i])
  }

  lemma AnswersMatch(db: Db, rows: seq<Record>, rs: seq<Record>)
    requires AnsweredBy(db, rows, rs)
    ensures |rs| == |rows|
  {
  }

  lemma AnswersAre(db: Db, rows: seq<Record>, rs: seq<Record>)
    requires AnsweredBy(db, rows, rs)
    ensures |rs| == |rows| && forall k | 0 <= k < |rows| :: rs[k] == Stored(db, rows[k])
  {
  }

  datatype BackfillResult = BackfillResult(batchId: Id, pending: nat, records: seq<Record>)

  class Service {
    const store: Store

    constructor (store: Store)
      ensures this.store == store
    {
      this.store := store;
    }

    // Writes made before a failure stay until the caller rolls back.
    method RouteToManual(r: Record, freshId: Id) returns (failure: Option<Error>)
      modifies store
      ensures failure == FailureOf(SyncDb.RouteToManual(old(store.Tables()), r, freshId))
      ensures failure == None ==> store.Tables() == SyncDb.RouteToManual(old(store.Tables()), r, freshId).value
    {
      var existing := store.Tables().ManualByRecord(r.id);
      if existing.Some? {
        failure := store.SetManual(r.id, existing.value.id, r.version);
        return;
      }
      failure := store.CreateManual(freshId, r.id, r.orderId);
      if failure != None {
        return;
      }
      failure := store.SetManual(r.id, freshId, r.version);
    }

    method ResolveRecord(r: Record, now: int, freshId: Id) returns (failure: Option<Error>)
      modifies store
      ensures failure == FailureOf(Resolve(old(store.Tables()), r, now, freshId))
      ensures failure == None ==> store.Tables() == Resolve(old(store.Tables()), r, now, freshId).value
    {
      if r.status != Pending {
        return None;
      }
      if r.orderId !in store.orders {
        return Some(NotFound);
      }
      if Window.Expired(r.occurredAt, store.orders[r.orderId].windowHours, now) {
        failure := RouteToManual(r, freshId);
        return;
      }
      if r.Day() in store.workHours && store.workHours[r.Day()].hours != r.hours {
        failure := store.SetConflict(r.id, store.workHours[r.Day()].id, r.version);
        return;
      }
      failure := store.UpdateRecordStatus(r.id, Pending, Accepted, r.version);
    }

    // The transaction of ProcessBatch: all rows or none.
    method ResolveRows(rows: seq<Record>, o: Oracle) returns (failure: Option<Error>, processed: nat)
      requires |o.clocks| == |rows| && |o.freshIds| == |rows|
      modifies store
      ensures failure == FailureOf(ResolveAll(old(store.Tables()), Work(rows, o)))
      ensures store.Tables() == InTx(old(store.Tables()), ResolveAll(old(store.Tables()), Work(rows, o)))
      ensures failure == None ==> processed == |rows|
    {
      var saved := store.Tables();
      ghost var work := Work(rows, o);
      processed := 0;
      while processed < |rows|
        invariant processed <= |rows|
        invariant ResolveAll(saved, work[..processed]) == Ok(store.Tables())
      {
        ResolveAllNext(saved, work, processed, store.Tables());
        failure := ResolveRecord(rows[processed], o.clocks[processed], o.freshIds[processed]);
        if failure != None {
          ResolveAllFailsOnce(saved, work, processed + 1);
          store.Restore(saved);
          return;
        }
        processed := processed + 1;
      }
      assert work[..processed] == work;
      failure := None;
    }

    // os holds what the surroundings supply to each step: the listing order to the
    // fourth, the clock readings and uuids to the fifth.
    method ProcessBatch(batchId: Id, owner: Id, ttl: int, now: int, os: seq<Oracle>) returns (failure: Option<Error>)
      requires |os| == 6
      requires Lists(store.Tables(), batchId, os[3].order) && Supplies(os[4], |os[3].order|, now)
      modifies store
      ensures Alone(old(store.Tables()), now, PbStart(batchId, owner, ttl), os) == (store.Tables(), Done(failure))
      ensures Inv.DbInv(old(store.Tables())) ==>
                && BatchCalls.ListsBatch(old(store.Tables()), batchId, os[3].order)
                && |os[4].clocks| == |os[4].freshIds| == |os[3].order|
                && BatchCalls.BatchReturns(
                     old(store.Tables()), batchId, owner, now + ttl, os[3].fail || os[4].fail,
                     os[3].order, os[4].clocks, os[4].freshIds, store.Tables(), failure)
    {
      hide Alone, Lists, Supplies, Inv.DbInv, BatchCalls.BatchReturns, BatchCalls.ListsBatch;
      failure := ClaimAndProcess(batchId, owner, ttl, now, os);
      if Inv.DbInv(old(store.Tables())) {
        BatchCalls.ProcessBatchReturns(
          old(store.Tables()), now, batchId, owner, ttl, os, store.Tables(), failure);
      }
    }

    // Claim, reload, list, resolve in one transaction, complete.
    method ClaimAndProcess(batchId: Id, owner: Id, ttl: int, now: int, os: seq<Oracle>) returns (failure: Option<Error>)
      requires |os| == 6
      requires Lists(store.Tables(), batchId, os[3].order) && Supplies(os[4], |os[3].order|, now)
      modifies store
      ensures Alone(old(store.Tables()), now, PbStart(batchId, owner, ttl), os) == (store.Tables(), Done(failure))
    {
      hide Alone;
      ghost var db0, w0 := store.Tables(), PbStart(batchId, owner, ttl);
      var leaseUntil := now + ttl;
      TakeStep(db0, now, w0, os, db0, PbClaim(batchId, owner, leaseUntil));
      failure := store.ClaimLease(batchId, owner, leaseUntil);
      ghost var db1, w1 := store.Tables(), PbClaim(batchId, owner, leaseUntil);
      if failure != None {
        Return(db0, now, w1, os[1..], db1, failure);
        return;
      }
      TakeStep(db0, now, w1, os[1..], db1, PbReload(batchId));
      var batch := store.batches[batchId];
      assert os[1..][1..] == os[2..] && os[2..][1..] == os[3..];
      TakeStep(db1, now, PbReload(batchId), os[2..], db1, PbList(batchId, batch));
      failure := ListAndResolve(batchId, batch, now, os[3..]);
    }

    // The listing of ProcessBatch and what follows it.
    method ListAndResolve(batchId: Id, batch: Batch, now: int, os: seq<Oracle>) returns (failure: Option<Error>)
      requires |os| == 3
      requires Lists(store.Tables(), batchId, os[0].order) && Supplies(os[1], |os[0].order|, now)
      modifies store
      ensures Alone(old(store.Tables()), now, PbList(batchId, batch), os) == (store.Tables(), Done(failure))
    {
      hide Alone;
      ghost var db0, w0 := store.Tables(), PbList(batchId, batch);
      if os[0].fail {
        TakeStep(db0, now, w0, os, db0, PbRelease(batchId, Driver));
        var _ := store.ReleaseLease(batchId);
        Return(db0, now, PbRelease(batchId, Driver), os[1..], store.Tables(), Some(Driver));
        return Some(Driver);
      }
      var rows := FetchListed(store.Tables(), batchId, os[0].order);
      TakeStep(db0, now, w0, os, db0, PbResolve(batchId, batch, rows));
      failure := ResolveAndComplete(batchId, batch, rows, now, os[1..]);
    }

    // The transaction of ProcessBatch and what follows it.
    method ResolveAndComplete(batchId: Id, batch: Batch, rows: seq<Record>, now: int, os: seq<Oracle>)
      returns (failure: Option<Error>)
      requires |os| == 2 && Supplies(os[0], |rows|, now)
      modifies store
      ensures Alone(old(store.Tables()), now, PbResolve(batchId, batch, rows), os) == (store.Tables(), Done(failure))
    {
      hide Alone;
      ghost var db0, w0 := store.Tables(), PbResolve(batchId, batch, rows);
      var processed := 0;
      if os[0].fail {
        failure := Some(Driver);
      } else {
        failure, processed := ResolveRows(rows, os[0]);
      }
      ghost var db1, later := store.Tables(), ClockAfter(now, w0, os[0]);
      if failure != None {
        TakeStep(db0, now, w0, os, db1, PbRelease(batchId, failure.value));
        var _ := store.ReleaseLease(batchId);
        Return(db1, later, PbRelease(batchId, failure.value), os[1..], store.Tables(), failure);
        return;
      }
      TakeStep(db0, now, w0, os, db1, PbFinish(batchId, batch, processed));
      failure := store.UpdateBatchProgress(batchId, processed, BatchCompleted, batch.version);
      Return(db1, later, PbFinish(batchId, batch, processed), os[1..], store.Tables(), failure);
    }

    method ManualVerify(recordId: Id, reviewer: Id, decision: Decision, now: int, os: seq<Oracle>)
      returns (failure: Option<Error>)
      requires |os| == 4
      modifies store
      ensures Alone(old(store.Tables()), now, MvStart(recordId, reviewer, decision), os) == (store.Tables(), Done(failure))
      ensures Inv.DbInv(old(store.Tables())) ==>
                Calls.ReviewReturns(old(store.Tables()), recordId, reviewer, decision, store.Tables(), failure)
    {
      hide Alone, Inv.DbInv, Calls.ReviewReturns;
      failure := ReadAndReview(recordId, reviewer, decision, now, os);
      if Inv.DbInv(old(store.Tables())) {
        Calls.ManualVerifyReturns(old(store.Tables()), now, recordId, reviewer, decision, os, store.Tables(), failure);
      }
    }

    // Read the record, read its manual row, review, move the record.
    method ReadAndReview(recordId: Id, reviewer: Id, decision: Decision, now: int, os: seq<Oracle>)
      returns (failure: Option<Error>)
      requires |os| == 4
      modifies store
      ensures Alone(old(store.Tables()), now, MvStart(recordId, reviewer, decision), os) == (store.Tables(), Done(failure))
    {
      hide Alone;
      ghost var db0, w0 := store.Tables(), MvStart(recordId, reviewer, decision);
      if recordId !in store.records {
        Return(db0, now, w0, os, db0, Some(NotFound));
        return Some(NotFound);
      }
      var record := store.records[recordId];
      TakeStep(db0, now, w0, os, db0, MvManual(record, reviewer, decision));
      var found := store.Tables().ManualByRecord(record.id);
      failure := Refusal(record, found);
      if found.None? || record.status != AwaitingReview || found.value.reviewed {
        Return(db0, now, MvManual(record, reviewer, decision), os[1..], db0, failure);
        return;
      }
      var manual := found.value;
      TakeStep(db0, now, MvManual(record, reviewer, decision), os[1..], db0, MvReview(record, manual, reviewer, decision));
      failure := ReviewAndMove(record, manual, reviewer, decision, now, os[2..]);
    }

    // Why ManualVerify stops before reviewing, if it does; a review already
    // written is no failure.
    static function Refusal(record: Record, manual: Option<Manual>): Option<Error> {
      match manual
      case None => Some(NotFound)
      case Some(m) =>
        if record.status == AwaitingReview || ((record.status == Verified || record.status == Revoked) && m.reviewed)
        then None else Some(IllegalTransition)
    }

    method ReviewAndMove(record: Record, manual: Manual, reviewer: Id, decision: Decision, now: int, os: seq<Oracle>)
      returns (failure: Option<Error>)
      requires |os| == 2
      modifies store
      ensures Alone(old(store.Tables()), now, MvReview(record, manual, reviewer, decision), os)
              == (store.Tables(), Done(failure))
    {
      hide Alone;
      ghost var db0, w0 := store.Tables(), MvReview(record, manual, reviewer, decision);
      failure := store.ReviewManual(manual.id, reviewer, decision, manual.version);
      ghost var db1 := store.Tables();
      if failure != None {
        Return(db0, now, w0, os, db1, failure);
        return;
      }
      TakeStep(db0, now, w0, os, db1, MvRecord(record, manual.id, decision));
      var target := if decision == Reject then Revoked else Verified;
      failure := store.UpdateRecordStatus(record.id, AwaitingReview, target, record.version);
      Return(db1, now, MvRecord(record, manual.id, decision), os[1..], store.Tables(), failure);
    }

    // The transaction of Adjudicate.
    method Rule(r: Record, wh: WorkHour, winner: Winner, adjudicator: Id, freshId: Id) returns (failure: Option<Error>)
      modifies store
      ensures failure == FailureOf(SyncDb.Adjudicate(old(store.Tables()), r, wh, winner, adjudicator, freshId))
      ensures store.Tables() == InTx(old(store.Tables()), SyncDb.Adjudicate(old(store.Tables()), r, wh, winner, adjudicator, freshId))
    {
      var saved := store.Tables();
      var delta := if r.hours < wh.hours then wh.hours - r.hours else r.hours - wh.hours;
      var attributedTo := if winner == Customer then Field else Customer;
      failure := store.CreateRuling(Ruling(freshId, r.id, wh.id, winner, delta, attributedTo, adjudicator));
      if failure == None {
        failure := store.UpdateRecordStatus(r.id, Conflict, Adjudicated, r.version);
      }
      if failure != None {
        store.Restore(saved);
      }
    }

    method Adjudicate(recordId: Id, winner: Winner, adjudicator: Id, freshId: Id, now: int, os: seq<Oracle>)
      returns (failure: Option<Error>)
      requires |os| == 3
      modifies store
      ensures Alone(old(store.Tables()), now, AdStart(recordId, winner, adjudicator, freshId), os)
              == (store.Tables(), Done(failure))
      ensures Inv.DbInv(old(store.Tables())) ==>
                Calls.RulingReturns(old(store.Tables()), recordId, winner, adjudicator, freshId, store.Tables(), failure)
    {
      hide Alone, Inv.DbInv, Calls.RulingReturns;
      failure := ReadAndRule(recordId, winner, adjudicator, freshId, now, os);
      if Inv.DbInv(old(store.Tables())) {
        Calls.AdjudicateReturns(
          old(store.Tables()), now, recordId, winner, adjudicator, freshId, os, store.Tables(), failure);
      }
    }

    // Read the record, look its work hours up again, rule.
    method ReadAndRule(recordId: Id, winner: Winner, adjudicator: Id, freshId: Id, now: int, os: seq<Oracle>)
      returns (failure: Option<Error>)
      requires |os| == 3
      modifies store
      ensures Alone(old(store.Tables()), now, AdStart(recordId, winner, adjudicator, freshId), os)
              == (store.Tables(), Done(failure))
    {
      hide Alone;
      ghost var db0, w0 := store.Tables(), AdStart(recordId, winner, adjudicator, freshId);
      failure := if recordId !in store.records then Some(NotFound)
                 else if store.records[recordId].status !in {Conflict, Adjudicated} then Some(IllegalTransition)
                 else if store.records[recordId].status == Conflict && store.records[recordId].conflictId.None? then Some(Incomplete)
                 else None;
      if failure != None {
        Return(db0, now, w0, os, db0, failure);
        return;
      }
      var r := store.records[recordId];
      if r.status == Adjudicated {
        TakeStep(db0, now, w0, os, db0, AdExisting(r));
        failure := if r.id in store.rulings then None else Some(IllegalTransition);
        Return(db0, now, AdExisting(r), os[1..], db0, failure);
        return;
      }
      ghost var w1 := AdHours(r, winner, adjudicator, freshId);
      TakeStep(db0, now, w0, os, db0, w1);
      if r.Day() !in store.workHours {
        Return(db0, now, w1, os[1..], db0, Some(NotFound));
        return Some(NotFound);
      }
      var wh := store.workHours[r.Day()];
      TakeStep(db0, now, w1, os[1..], db0, AdRule(r, wh, winner, adjudicator, freshId));
      failure := Rule(r, wh, winner, adjudicator, freshId);
      Return(db0, now, AdRule(r, wh, winner, adjudicator, freshId), os[2..], store.Tables(), failure);
    }

    // The transaction of CorrectRecord.
    method Apply(r: Record, hours: real) returns (failure: Option<Error>)
      modifies store
      ensures failure == FailureOf(Correct(old(store.Tables()), r, hours))
      ensures store.Tables() == InTx(old(store.Tables()), Correct(old(store.Tables()), r, hours))
    {
      var saved := store.Tables();
      failure := store.CorrectHours(r.id, hours, r.version);
      if failure == None && r.status == Accepted {
        failure := store.UpdateRecordStatus(r.id, Accepted, Verified, store.records[r.id].version);
      }
      if failure != None {
        store.Restore(saved);
      }
    }

    method CorrectRecord(recordId: Id, hours: real, now: int, os: seq<Oracle>) returns (failure: Option<Error>)
      requires |os| == 2
      modifies store
      ensures Alone(old(store.Tables()), now, CoStart(recordId, hours), os) == (store.Tables(), Done(failure))
      ensures Inv.DbInv(old(store.Tables())) ==>
                Calls.CorrectionReturns(old(store.Tables()), recordId, hours, store.Tables(), failure)
    {
      hide Alone, Inv.DbInv, Calls.CorrectionReturns;
      failure := ReadAndApply(recordId, hours, now, os);
      if Inv.DbInv(old(store.Tables())) {
        Calls.CorrectReturns(old(store.Tables()), now, recordId, hours, os, store.Tables(), failure);
      }
    }

    method ReadAndApply(recordId: Id, hours: real, now: int, os: seq<Oracle>) returns (failure: Option<Error>)
      requires |os| == 2
      modifies store
      ensures Alone(old(store.Tables()), now, CoStart(recordId, hours), os) == (store.Tables(), Done(failure))
    {
      hide Alone;
      ghost var db0, w0 := store.Tables(), CoStart(recordId, hours);
      if recordId !in store.records {
        Return(db0, now, w0, os, db0, Some(NotFound));
        return Some(NotFound);
      }
      var r := store.records[recordId];
      if r.status == Revoked {
        Return(db0, now, w0, os, db0, Some(IllegalTransition));
        return Some(IllegalTransition);
      }
      TakeStep(db0, now, w0, os, db0, CoApply(r, hours));
      failure := Apply(r, hours);
      Return(db0, now, CoApply(r, hours), os[1..], store.Tables(), failure);
    }

    method RevokeRecord(recordId: Id, now: int, os: seq<Oracle>) returns (failure: Option<Error>)
      requires |os| == 2
      modifies store
      ensures Alone(old(store.Tables()), now, ReStart(recordId), os) == (store.Tables(), Done(failure))
      ensures Inv.DbInv(old(store.Tables())) ==>
                Calls.RevocationReturns(old(store.Tables()), recordId, store.Tables(), failure)
    {
      hide Alone, Inv.DbInv, Calls.RevocationReturns;
      failure := ReadAndRevoke(recordId, now, os);
      if Inv.DbInv(old(store.Tables())) {
        Calls.RevokeReturns(old(store.Tables()), now, recordId, os, store.Tables(), failure);
      }
    }

    method ReadAndRevoke(recordId: Id, now: int, os: seq<Oracle>) returns (failure: Option<Error>)
      requires |os| == 2
      modifies store
      ensures Alone(old(store.Tables()), now, ReStart(recordId), os) == (store.Tables(), Done(failure))
    {
      hide Alone;
      ghost var db0, w0 := store.Tables(), ReStart(recordId);
      if recordId !in store.records {
        Return(db0, now, w0, os, db0, Some(NotFound));
        return Some(NotFound);
      }
      var r := store.records[recordId];
      if r.status == Revoked {
        Return(db0, now, w0, os, db0, None);
        return None;
      }
      if !AssertTransition(recordTransitions, r.status, Revoked) {
        Return(db0, now, w0, os, db0, Some(IllegalTransition));
        return Some(IllegalTransition);
      }
      TakeStep(db0, now, w0, os, db0, ReApply(r));
      failure := store.UpdateRecordStatus(r.id, r.status, Revoked, r.version);
      Return(db0, now, ReApply(r), os[1..], store.Tables(), failure);
    }

    // insertRecordRow behind its lookup: a stored row answers for itself, a new
    // one is numbered from the counter and inserted.
    method InsertRow(row: Record) returns (failure: Option<Error>, stored: Record)
      modifies store
      ensures failure == FailureOf(InsertOne(old(store.Tables()), row))
      ensures failure == None ==> store.Tables() == InsertOne(old(store.Tables()), row).value
      ensures failure == None && Indexed(old(store.Tables())) ==> stored == Stored(store.Tables(), row)
    {
      stored := row;
      failure := None;
      if row.Key() in store.bySeq {
        if store.bySeq[row.Key()] in store.records {
          stored := store.records[store.bySeq[row.Key()]];
        }
      } else {
        var v := store.NextChangeVersion();
        stored := row.(changeVersion := v);
        failure := store.InsertRecord(stored);
      }
    }

    // InsertBatch. The caller rolls back on failure.
    method InsertBatch(rows: seq<Record>) returns (failure: Option<Error>, rs: seq<Record>)
      requires Indexed(store.Tables())
      modifies store
      ensures failure == FailureOf(InsertAll(old(store.Tables()), rows))
      ensures failure == None ==> store.Tables() == InsertAll(old(store.Tables()), rows).value
      ensures failure == None ==> |rs| == |rows| && AnsweredBy(store.Tables(), rows, rs)
    {
      hide InsertOne, Indexed, Stored;
      ghost var was := store.Tables();
      rs := rows;
      var i := 0;
      while i < |rows|
        invariant i <= |rows| == |rs|
        invariant InsertAll(was, rows[..i]) == Ok(store.Tables()) && Indexed(store.Tables())
        invariant AnsweredBy(store.Tables(), rows[..i], rs[..i])
        invariant forall j | 0 <= j < i :: rows[j].Key() in store.Tables().bySeq
      {
        ghost var before := store.Tables();
        InsertAllNext(was, rows, i, before);
        var stored;
        failure, stored := InsertRow(rows[i]);
        if failure != None {
          InsertAllFailsOnce(was, rows, i + 1);
          return;
        }
        rs := rs[i := stored];
        InsertOneKeepsStored(before, rows[i], store.Tables());
        i := i + 1;
      }
      assert rows[..i] == rows && rs[..i] == rs;
      failure := None;
    }

    // The newest change version among the answered rows.
    method LastVersion(rs: seq<Record>, ghost rows: seq<Record>) returns (last: int)
      requires AnsweredBy(store.Tables(), rows, rs)
      ensures last == MaxChange(store.Tables(), rows)
    {
      last := 0;
      var i := 0;
      while i < |rs|
        invariant i <= |rs| && last == MaxChange(store.Tables(), rows[..i])
      {
        MaxChangeNext(store.Tables(), rows, i);
        if rs[i].changeVersion > last {
          last := rs[i].changeVersion;
        }
        i := i + 1;
      }
      assert rows[..i] == rows;
    }

    // The idempotency scan: which rows are stored already.
    method FindExisting(rows: seq<Record>) returns (allExisted: bool, rs: seq<Record>)
      requires Indexed(store.Tables())
      ensures allExisted == AllKnown(store.Tables(), rows)
      ensures allExisted ==> AnsweredBy(store.Tables(), rows, rs)
    {
      allExisted, rs := true, rows;
      var i := 0;
      while i < |rows|
        invariant i <= |rows| == |rs|
        invariant allExisted <==> forall j | 0 <= j < i :: rows[j].Key() in store.bySeq
        invariant forall j | 0 <= j < i && rows[j].Key() in store.bySeq :: rs[j] == Stored(store.Tables(), rows[j])
      {
        if rows[i].Key() in store.bySeq {
          rs := rs[i := store.records[store.bySeq[rows[i].Key()]]];
        } else {
          allExisted := false;
        }
        i := i + 1;
      }
    }

    // The transaction of Backfill; rs are the rows the caller is answered with.
    method Replay(orderId: Id, batchId: Id, rows: seq<Record>)
      returns (failure: Option<Error>, allExisted: bool, rs: seq<Record>)
      requires Indexed(store.Tables())
      modifies store
      ensures failure == FailureOf(SyncDb.Backfill(old(store.Tables()), orderId, batchId, rows))
      ensures store.Tables() == InTx(old(store.Tables()), SyncDb.Backfill(old(store.Tables()), orderId, batchId, rows))
      ensures failure == None ==>
                AnsweredBy(store.Tables(), rows, rs) && allExisted == AllKnown(old(store.Tables()), rows)
    {
      hide AllKnown, InsertAll, MaxChange;
      var saved := store.Tables();
      allExisted, rs := FindExisting(rows);
      failure := None;
      if allExisted {
        return;
      }
      failure := store.CreateSyncBatch(Batch(batchId, orderId, None, None, BatchPending, |rows|, 0, 0, None, 1));
      if failure == None {
        failure, rs := InsertBatch(rows);
      }
      if failure == None {
        var last := LastVersion(rs, rows);
        ghost var filled := store.Tables();
        failure := store.UpsertBackfill(orderId, last);
        assert failure == None ==> AnsweredBy(store.Tables(), rows, rs) by { assert AnsweredBy(filled, rows, rs); }
      }
      if failure != None {
        store.Restore(saved);
      }
    }

    method Validate(sorted: seq<Input>) returns (valid: bool)
      ensures valid <==> forall i | 0 <= i < |sorted| :: ValidInput(sorted[i])
    {
      var i := 0;
      while i < |sorted|
        invariant i <= |sorted| && forall j | 0 <= j < i :: ValidInput(sorted[j])
      {
        if !ValidInput(sorted[i]) {
          return false;
        }
        i := i + 1;
      }
      return true;
    }

    method Backfill(orderId: Id, inputs: seq<Input>, batchId: Id, freshIds: seq<Id>, now: int, os: seq<Oracle>)
      returns (failure: Option<Error>, result: BackfillResult)
      requires |os| == 2 && |freshIds| == |ReplayOrder.SortStable(inputs)| && Indexed(store.Tables())
      modifies store
      ensures Alone(old(store.Tables()), now, BfStart(orderId, inputs, batchId, freshIds), os)
              == (store.Tables(), Done(failure))
      ensures Inv.DbInv(old(store.Tables())) ==>
                ReplayCalls.BackfillReturns(
                  old(store.Tables()), now, orderId, inputs, batchId, freshIds, store.Tables(), failure)
      ensures Inv.DbInv(old(store.Tables())) && failure == None ==>
                var sorted := ReplayOrder.SortStable(inputs);
                && |result.records| == |sorted|
                && (forall k | 0 <= k < |sorted| ::
                      ReplayCalls.Answers(
                        old(store.Tables()), now, orderId, sorted, batchId, freshIds, k, store.Tables(), result.records[k]))
                && (if forall x | x in inputs :: (orderId, x.seqNo) in old(store.bySeq)
                    then result.pending == 0 && 0 < |sorted| && result.batchId == result.records[0].batchId
                    else result.pending == |sorted| && result.batchId == batchId)
    {
      hide Alone, ReplayOrder.SortStable, Indexed, AnsweredBy, AllKnown, Inv.DbInv, ReplayCalls.BackfillReturns,
        ReplayCalls.Answers;
      failure, result := SortAndReplay(orderId, inputs, batchId, freshIds, now, os);
      ghost var db := old(store.Tables());
      if Inv.DbInv(db) {
        ReplayCalls.BackfillCallReturns(db, now, orderId, inputs, batchId, freshIds, os, store.Tables(), failure);
        if failure == None {
          ReplayCalls.EveryInputAnswered(db, now, orderId, inputs, batchId, freshIds, store.Tables());
          ReplayCalls.EveryNumberStored(db, orderId, inputs, batchId, freshIds, now);
          AnswersAre(store.Tables(), Rows(orderId, batchId, ReplayOrder.SortStable(inputs), freshIds, now), result.records);
        }
      }
    }

    // Validate, sort, build the rows and replay them.
    method SortAndReplay(orderId: Id, inputs: seq<Input>, batchId: Id, freshIds: seq<Id>, now: int, os: seq<Oracle>)
      returns (failure: Option<Error>, result: BackfillResult)
      requires |os| == 2 && |freshIds| == |ReplayOrder.SortStable(inputs)| && Indexed(store.Tables())
      modifies store
      ensures Alone(old(store.Tables()), now, BfStart(orderId, inputs, batchId, freshIds), os)
              == (store.Tables(), Done(failure))
      ensures failure == None ==>
                var sorted := ReplayOrder.SortStable(inputs);
                && (forall i | 0 <= i < |sorted| :: ValidInput(sorted[i]))
                && var rows := Rows(orderId, batchId, sorted, freshIds, now);
                && AnsweredBy(store.Tables(), rows, result.records)
                && (if AllKnown(old(store.Tables()), rows)
                    then result.pending == 0 && 0 < |rows| && result.batchId == result.records[0].batchId
                    else result.pending == |rows| && result.batchId == batchId)
    {
      hide Alone, ReplayOrder.SortStable, AllKnown, Indexed, AnsweredBy, SyncDb.Backfill;
      ghost var db0, w0 := store.Tables(), BfStart(orderId, inputs, batchId, freshIds);
      result := BackfillResult(batchId, 0, []);
      if inputs == [] {
        Return(db0, now, w0, os, db0, Some(Validation));
        return Some(Validation), result;
      }
      if orderId !in store.orders {
        Return(db0, now, w0, os, db0, Some(NotFound));
        return Some(NotFound), result;
      }
      if store.orders[orderId].aborted {
        Return(db0, now, w0, os, db0, Some(IllegalTransition));
        return Some(IllegalTransition), result;
      }
      var sorted := ReplayOrder.SortStable(inputs);
      var valid := Validate(sorted);
      if !valid {
        Return(db0, now, w0, os, db0, Some(Validation));
        return Some(Validation), result;
      }
      var rows := Rows(orderId, batchId, sorted, freshIds, now);
      TakeStep(db0, now, w0, os, db0, BfReplay(orderId, batchId, rows));
      var allExisted, rs;
      failure, allExisted, rs := Replay(orderId, batchId, rows);
      Return(db0, now, BfReplay(orderId, batchId, rows), os[1..], store.Tables(), failure);
      if failure == None {
        KnownChangesNothing(db0, orderId, batchId, rows);
        AnswersMatch(store.Tables(), rows, rs);
        ReplayOrder.SortKeepsLength(inputs);
        result := if !allExisted then BackfillResult(batchId, |rs|, rs)
                  else BackfillResult(rs[0].batchId, 0, rs);
      }
    }
  }
}
