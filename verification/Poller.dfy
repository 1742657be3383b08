// The scheduler's handling of one batch: process it, then back off or
// dead-letter it when processing failed.
module Poller {
  import opened Common
  import opened Status
  import opened SyncDb
  import opened SyncMachine
  import opened SyncAlone
  import opened SyncBatches
  import opened SyncService
  import Backoff

  // What becomes of the tables once processing returned: on a failure the batch is
  // dead-lettered at its last retry, and before that marked failed and due again at
  // a later time, unless it is not processing, failed or leasing any more.
  ghost predicate Handled(db: Db, batch: Batch, failure: Option<Error>, maxRetries: int, at: int, db': Db) {
    if failure == None || failure == Some(LeaseHeld) || batch.id !in db.batches then db' == db
    else
      var b := db.batches[batch.id];
      if maxRetries <= batch.retryCount + 1 then
        db' == db.(batches := db.batches[batch.id := b.(
          status := BatchPermanent, nextRetryAt := None, version := b.version + 1)])
      else if b.status == BatchProcessing || b.status == BatchFailed || b.status == BatchLeasing then
        db' == db.(batches := db.batches[batch.id := b.(
          status := BatchFailed, retryCount := b.retryCount + 1, nextRetryAt := Some(at), version := b.version + 1)])
      else db' == db
  }

  class Poller {
    const service: Service
    const base: int
    const max: int
    const maxRetries: int

    constructor (service: Service, base: int, max: int, maxRetries: int)
      ensures this.service == service && this.base == base && this.max == max && this.maxRetries == maxRetries
    {
      this.service, this.base, this.max, this.maxRetries := service, base, max, maxRetries;
    }

    // processOne, on the batch as the listing returned it.
    method ProcessOne(batch: Batch, owner: Id, ttl: int, now: int, os: seq<Oracle>, later: int, draw: nat)
      returns (failure: Option<Error>, at: int)
      requires 0 < base <= max < TWO_63 / 2 && 0 <= batch.retryCount
      requires |os| == 6
      requires Lists(service.store.Tables(), batch.id, os[3].order) && Supplies(os[4], |os[3].order|, now)
      modifies service.store
      ensures later < at && 2 * (at - later) <= 3 * max
      ensures var (db, w) := Alone(old(service.store.Tables()), now, PbStart(batch.id, owner, ttl), os);
              w == Done(failure) && Handled(db, batch, failure, maxRetries, at, service.store.Tables())
    {
      hide Alone, StepWorker, Lists, Supplies;
      var backoff;
      at, backoff := Backoff.NextRetry(base, max, batch.retryCount, later, draw);
      failure := service.ProcessBatch(batch.id, owner, ttl, now, os);
      if failure == None || failure == Some(LeaseHeld) {
        return;
      }
      if batch.retryCount + 1 >= maxRetries {
        var _ := service.store.MarkBatchPermanent(batch.id);
        return;
      }
      service.store.BumpBatchRetry(batch.id, at);
    }
  }

  // --- a failed batch is back in pending before it is backed off ----------------

  predicate HasRetries(db: Db, b: Id, retries: int) {
    b in db.batches && db.batches[b].retryCount == retries
  }

  // Where a lone ProcessBatch on b stands.
  predicate LoneAt(db: Db, w: Worker, b: Id, retries: int) {
    && HasRetries(db, b, retries)
    && match w
       case PbStart(id, _, _) => id == b
       case PbClaim(id, _, _) => id == b
       case PbReload(id) => id == b && db.batches[b].status == BatchLeasing
       case PbList(id, batch) => id == b && db.batches[b] == batch && batch.status == BatchLeasing
       case PbResolve(id, batch, _) => id == b && db.batches[b] == batch && batch.status == BatchLeasing
       case PbRelease(id, _) => id == b && db.batches[b].status == BatchLeasing
       case PbFinish(id, batch, _) => id == b && db.batches[b] == batch && batch.status == BatchLeasing
       case Done(failure) => failure == None || failure == Some(LeaseHeld) || db.batches[b].status == BatchPending
       case _ => false
  }

  lemma LoneStep(db: Db, now: int, w: Worker, o: Oracle, b: Id, retries: int)
    requires LoneAt(db, w, b, retries)
    ensures var (db', w') := StepWorker(db, now, w, o); LoneAt(db', w', b, retries)
  {
    hide ResolveAll, Lists, Supplies, StepWorker;
    match w {
      case PbResolve(_, _, _) => LoneResolve(db, now, w, o, b, retries);
      case PbRelease(_, _) => LoneRelease(db, now, w, o, b, retries);
      case PbClaim(_, _, _) => LoneClaim(db, now, w, o, b, retries);
      case PbFinish(_, _, _) => LoneFinish(db, now, w, o, b, retries);
      case _ => LoneRead(db, now, w, o, b, retries);
    }
  }

  lemma LoneRead(db: Db, now: int, w: Worker, o: Oracle, b: Id, retries: int)
    requires LoneAt(db, w, b, retries) && (w.PbStart? || w.PbReload? || w.PbList? || w.Done?)
    ensures var (db', w') := StepWorker(db, now, w, o); LoneAt(db', w', b, retries)
  {
    hide Lists;
  }

  lemma ClaimMoves(db: Db, now: int, w: Worker, o: Oracle)
    requires w.PbClaim?
    ensures var (db', w') := StepWorker(db, now, w, o);
            var b := w.batchId;
            if b in db.batches && db.batches[b].status == BatchPending then
              && w' == PbReload(b) && b in db'.batches
              && db'.batches[b].status == BatchLeasing && db'.batches[b].retryCount == db.batches[b].retryCount
            else db' == db && w' == Done(Some(LeaseHeld))
  {
  }

  lemma LoneClaim(db: Db, now: int, w: Worker, o: Oracle, b: Id, retries: int)
    requires LoneAt(db, w, b, retries) && w.PbClaim?
    ensures var (db', w') := StepWorker(db, now, w, o); LoneAt(db', w', b, retries)
  {
    hide StepWorker;
    ClaimMoves(db, now, w, o);
  }

  lemma LoneRelease(db: Db, now: int, w: Worker, o: Oracle, b: Id, retries: int)
    requires LoneAt(db, w, b, retries) && w.PbRelease?
    ensures var (db', w') := StepWorker(db, now, w, o); LoneAt(db', w', b, retries)
  {
  }

  lemma LoneFinish(db: Db, now: int, w: Worker, o: Oracle, b: Id, retries: int)
    requires LoneAt(db, w, b, retries) && w.PbFinish?
    ensures var (db', w') := StepWorker(db, now, w, o); LoneAt(db', w', b, retries)
  {
  }

  lemma LoneResolve(db: Db, now: int, w: Worker, o: Oracle, b: Id, retries: int)
    requires LoneAt(db, w, b, retries) && w.PbResolve?
    ensures var (db', w') := StepWorker(db, now, w, o); LoneAt(db', w', b, retries)
  {
    hide ResolveAll, Lists, Supplies;
    if !o.fail && Supplies(o, |w.rows|, now) {
      assert |o.clocks| == |w.rows| && |o.freshIds| == |w.rows| by { SuppliesEach(o, |w.rows|, now); }
      if ResolveAll(db, Work(w.rows, o)).Ok? {
        ResolveAllKeepsRest(db, Work(w.rows, o));
      }
    }
  }

  lemma SuppliesEach(o: Oracle, n: nat, now: int)
    requires Supplies(o, n, now)
    ensures |o.clocks| == n && |o.freshIds| == n
  {
  }

  lemma {:induction false} LoneRun(db: Db, now: int, w: Worker, os: seq<Oracle>, b: Id, retries: int)
    requires LoneAt(db, w, b, retries)
    ensures var (db', w') := Alone(db, now, w, os); LoneAt(db', w', b, retries)
    decreases |os|
  {
    hide LoneAt, StepWorker;
    if os != [] {
      var (db', w') := StepWorker(db, now, w, os[0]);
      LoneStep(db, now, w, os[0], b, retries);
      LoneRun(db', ClockAfter(now, w, os[0]), w', os[1..], b, retries);
    }
  }

  // With nobody else at work, a batch that fails below the retry limit is never
  // backed off: releasing its lease made it pending, which BumpBatchRetry does
  // not touch. Its retry count stays and the next tick takes it again at once.
  lemma FailedPollIsNotCounted(
    db: Db, now: int, b: Id, owner: Id, ttl: int, os: seq<Oracle>, maxRetries: int, at: int, after: Db)
    requires b in db.batches && db.batches[b].retryCount + 1 < maxRetries && db.batches[b].id == b
    requires Alone(db, now, PbStart(b, owner, ttl), os).1.Done?
    requires var (db', w) := Alone(db, now, PbStart(b, owner, ttl), os);
             Handled(db', db.batches[b], w.failure, maxRetries, at, after)
    ensures b in after.batches && after.batches[b].retryCount == db.batches[b].retryCount
    ensures var (db', w) := Alone(db, now, PbStart(b, owner, ttl), os);
            w.failure != None && w.failure != Some(LeaseHeld) ==>
              after == db' && after.batches[b].status == BatchPending
  {
    hide Alone;
    LoneRun(db, now, PbStart(b, owner, ttl), os, b, db.batches[b].retryCount);
  }
}
