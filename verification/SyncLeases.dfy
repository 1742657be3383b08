// Leases and retry counts over whole runs: what has to happen between two claims
// of one batch, and the only move that counts a retry.
module SyncLeases {
  import opened Common
  import opened Status
  import opened SyncDb
  import opened SyncInv
  import opened SyncTx
  import opened Replay
  import opened SyncMachine
  import opened SyncSafety
  import opened SyncCommits
  import TimeText

  // --- how one move can touch a stored batch --------------------------------------------

  // The call rewrites the row of batch b.
  predicate WritesBatch(w: Worker, b: Id) {
    (w.PbClaim? || w.PbRelease? || w.PbFinish?) && w.batchId == b
  }

  lemma BatchUntouched(db: Db, now: int, w: Worker, o: Oracle, b: Id)
    requires DbInv(db) && WorkerOk(db, w) && b in db.batches && !WritesBatch(w, b)
    ensures var db' := StepWorker(db, now, w, o).0; b in db'.batches && db'.batches[b] == db.batches[b]
  {
    hide DbInv, StepWorker, WorkerOk;
    match w {
      case PbResolve(_, _, _) => ResolveLeavesBatches(db, now, w, o);
      case BfReplay(_, _, _) => ReplayLeavesBatch(db, now, w, o, b);
      case PbClaim(_, _, _) => OtherBatchWrite(db, now, w, o, b);
      case PbRelease(_, _) => OtherBatchWrite(db, now, w, o, b);
      case PbFinish(_, _, _) => OtherBatchWrite(db, now, w, o, b);
      case MvReview(_, _, _, _) => RecordWriteKeysStay(db, now, w, o);
      case MvRecord(_, _, _) => RecordWriteKeysStay(db, now, w, o);
      case AdRule(_, _, _, _, _) => RecordWriteKeysStay(db, now, w, o);
      case CoApply(_, _) => RecordWriteKeysStay(db, now, w, o);
      case ReApply(_) => RecordWriteKeysStay(db, now, w, o);
      case _ => ReadsOnly(db, now, w, o);
    }
  }

  lemma OtherBatchWrite(db: Db, now: int, w: Worker, o: Oracle, b: Id)
    requires (w.PbClaim? || w.PbRelease? || w.PbFinish?) && w.batchId != b && b in db.batches
    ensures var db' := StepWorker(db, now, w, o).0; b in db'.batches && db'.batches[b] == db.batches[b]
  {
  }

  lemma ResolveLeavesBatches(db: Db, now: int, w: Worker, o: Oracle)
    requires DbInv(db) && WorkerOk(db, w) && w.PbResolve?
    ensures StepWorker(db, now, w, o).0.batches == db.batches
  {
    hide DbInv, Snap, ResolveAll, Outcome;
    if !o.fail && Supplies(o, |w.rows|, now) && ResolveAll(db, Work(w.rows, o)).Ok? {
      WorkFacts(w.rows, o);
      ResolveAllGood(db, Work(w.rows, o));
      BatchesStay(db, Work(w.rows, o), ResolveAll(db, Work(w.rows, o)).value);
    }
  }

  lemma ReplayLeavesBatch(db: Db, now: int, w: Worker, o: Oracle, b: Id)
    requires DbInv(db) && w.BfReplay? && b in db.batches
    ensures var db' := StepWorker(db, now, w, o).0; b in db'.batches && db'.batches[b] == db.batches[b]
  {
    hide DbInv, Replayed, AllKnown, Backfill;
    var r := Backfill(db, w.orderId, w.batchId, w.rows);
    if r.Ok? {
      if AllKnown(db, w.rows) {
        KnownChangesNothing(db, w.orderId, w.batchId, w.rows);
      } else {
        BackfillReplays(db, w.orderId, w.batchId, w.rows);
        ReplayFrame(db, w.orderId, w.batchId, w.rows, r.value);
      }
    }
  }

  // --- leases ---------------------------------------------------------------------------

  // Move i is a claim of batch b that succeeds.
  ghost predicate ClaimsAt(moves: seq<Move>, i: nat, b: Id) {
    && i < |moves| && moves[i].StepOf? && moves[i].worker in At(moves, i).workers
    && At(moves, i).workers[moves[i].worker].PbClaim? && At(moves, i).workers[moves[i].worker].batchId == b
    && moves[i].worker in At(moves, i + 1).workers && At(moves, i + 1).workers[moves[i].worker].PbReload?
  }

  ghost predicate PendingAt(moves: seq<Move>, i: nat, b: Id)
    requires i <= |moves|
  {
    b in At(moves, i).db.batches && At(moves, i).db.batches[b].status == BatchPending
  }

  // A move that takes batch b out of its lease.
  ghost predicate Returns(s: Sys, m: Move, b: Id) {
    || m == Reclaim
    || m == ForeignRelease(b)
    || (m.StepOf? && m.worker in s.workers && s.workers[m.worker].PbRelease? && s.workers[m.worker].batchId == b)
  }

  lemma OnlyReturnsMakePending(s: Sys, m: Move, b: Id)
    requires Inv(s) && b in s.db.batches && s.db.batches[b].status != BatchPending
    ensures b in Next(s, m).db.batches
    ensures Next(s, m).db.batches[b].status == BatchPending ==>
              Returns(s, m, b) && s.db.batches[b].status == BatchLeasing
  {
    hide DbInv, WorkerOk, StepWorker, CountsOk, Surroundings, NoteAnswered;
    match m {
      case StepOf(w, o) =>
        if w in s.workers {
          if WritesBatch(s.workers[w], b) {
            BatchWriteOf(s.db, s.now, s.workers[w], o, b);
          } else {
            BatchUntouched(s.db, s.now, s.workers[w], o, b);
          }
        }
      case _ => SurroundingsOnBatch(s, m, b);
    }
  }

  // What a write may do to a batch's row, as far as leases and retries go.
  predicate RowAfter(b: Batch, b': Batch, back: bool, counted: bool) {
    && b'.retryCount == b.retryCount + (if counted then 1 else 0)
    && (b'.status == BatchPending && b.status != BatchPending ==> back && b.status == BatchLeasing)
  }

  lemma BatchWriteOf(db: Db, now: int, w: Worker, o: Oracle, b: Id)
    requires WritesBatch(w, b) && b in db.batches
    ensures var db' := StepWorker(db, now, w, o).0;
            b in db'.batches && RowAfter(db.batches[b], db'.batches[b], w.PbRelease?, false)
  {
    match w {
      case PbClaim(_, owner, until) => ClaimRow(db, b, owner, until);
      case PbRelease(_, _) => ReleaseRow(db, b);
      case PbFinish(_, batch, processed) => FinishRow(db, b, processed, batch.version);
    }
  }

  lemma ClaimRow(db: Db, b: Id, owner: Id, until: int)
    requires b in db.batches
    ensures var db' := InTx(db, db.ClaimLease(b, owner, until));
            b in db'.batches && RowAfter(db.batches[b], db'.batches[b], false, false)
  {
  }

  lemma ReleaseRow(db: Db, b: Id)
    requires b in db.batches
    ensures var db' := InTx(db, db.ReleaseLease(b));
            b in db'.batches && RowAfter(db.batches[b], db'.batches[b], true, false)
  {
  }

  lemma FinishRow(db: Db, b: Id, processed: nat, version: int)
    requires b in db.batches
    ensures var db' := InTx(db, db.UpdateBatchProgress(b, processed, BatchCompleted, version));
            b in db'.batches && RowAfter(db.batches[b], db'.batches[b], false, false)
  {
    if db.batches[b].version == version {
      var row := db.batches[b].(processedCount := processed, status := BatchCompleted, version := version + 1);
      assert InTx(db, db.UpdateBatchProgress(b, processed, BatchCompleted, version)).batches == db.batches[b := row];
      OneRow(db, b, row, b, false);
    }
  }

  predicate CountsRetry(db: Db, m: Move, b: Id)
    requires b in db.batches
  {
    m.BumpRetry? && m.batchId == b && db.batches[b].status in {BatchProcessing, BatchFailed, BatchLeasing}
  }

  lemma SurroundingsOnBatch(s: Sys, m: Move, b: Id)
    requires !m.StepOf? && b in s.db.batches
    ensures b in Next(s, m).db.batches
    ensures RowAfter(s.db.batches[b], Next(s, m).db.batches[b], m == Reclaim || m == ForeignRelease(b), CountsRetry(s.db, m, b))
  {
    hide RowAfter, Db.ReclaimExpired, Db.ReleaseLease, Db.BumpBatchRetry, Db.MarkBatchPermanent;
    match m {
      case Reclaim => ReclaimRow(s.db, s.now, b);
      case ForeignRelease(c) => ForeignRow(s.db, c, b);
      case BumpRetry(c, nextRetry) => BumpRow(s.db, c, nextRetry, b);
      case MarkPermanent(c) => PermanentRow(s.db, c, b);
      case _ => QuietRow(s, m, b);
    }
  }

  lemma ReclaimRow(db: Db, now: int, b: Id)
    requires b in db.batches
    ensures b in db.ReclaimExpired(now).batches
    ensures RowAfter(db.batches[b], db.ReclaimExpired(now).batches[b], true, false)
  {
    hide TimeText.TextBefore;
  }

  lemma ForeignRow(db: Db, c: Id, b: Id)
    requires b in db.batches
    ensures b in InTx(db, db.ReleaseLease(c)).batches
    ensures RowAfter(db.batches[b], InTx(db, db.ReleaseLease(c)).batches[b], b == c, false)
  {
    if b == c {
      ReleaseRow(db, b);
    }
  }

  lemma BumpRow(db: Db, c: Id, nextRetry: int, b: Id)
    requires b in db.batches
    ensures b in db.BumpBatchRetry(c, nextRetry).batches
    ensures RowAfter(db.batches[b], db.BumpBatchRetry(c, nextRetry).batches[b], false, CountsRetry(db, BumpRetry(c, nextRetry), b))
  {
    if c in db.batches && db.batches[c].status in {BatchProcessing, BatchFailed, BatchLeasing} {
      var row := db.batches[c].(
        status := BatchFailed, retryCount := db.batches[c].retryCount + 1,
        nextRetryAt := Some(nextRetry), version := db.batches[c].version + 1);
      assert db.BumpBatchRetry(c, nextRetry).batches == db.batches[c := row];
      OneRow(db, c, row, b, c == b);
    } else {
      assert db.BumpBatchRetry(c, nextRetry) == db;
    }
  }

  // One row rewritten, never into pending.
  lemma OneRow(db: Db, c: Id, row: Batch, b: Id, counted: bool)
    requires b in db.batches && c in db.batches && row.status != BatchPending
    requires c == b ==> row.retryCount == db.batches[c].retryCount + if counted then 1 else 0
    requires c != b ==> !counted
    ensures RowAfter(db.batches[b], db.batches[c := row][b], false, counted)
  {
  }

  lemma PermanentRow(db: Db, c: Id, b: Id)
    requires b in db.batches
    ensures b in InTx(db, db.MarkBatchPermanent(c)).batches
    ensures RowAfter(db.batches[b], InTx(db, db.MarkBatchPermanent(c)).batches[b], false, false)
  {
    if c in db.batches {
      var row := db.batches[c].(status := BatchPermanent, nextRetryAt := None, version := db.batches[c].version + 1);
      assert InTx(db, db.MarkBatchPermanent(c)).batches == db.batches[c := row];
      OneRow(db, c, row, b, false);
    }
  }

  lemma QuietRow(s: Sys, m: Move, b: Id)
    requires !m.StepOf? && !m.Reclaim? && !m.ForeignRelease? && !m.BumpRetry? && !m.MarkPermanent? && b in s.db.batches
    ensures b in Next(s, m).db.batches && RowAfter(s.db.batches[b], Next(s, m).db.batches[b], false, false)
  {
    hide Db.HoursIdTaken;
  }

  // A claim succeeds on a pending batch and leaves it leased.
  lemma ClaimTakesPending(moves: seq<Move>, i: nat, b: Id)
    requires ClaimsAt(moves, i, b)
    ensures PendingAt(moves, i, b) && b in At(moves, i + 1).db.batches && !PendingAt(moves, i + 1, b)
  {
    hide Run, DbInv;
    StepFacts(moves, i, moves[i].worker);
  }

  // Between two claims of one batch some move of the run released or reclaimed
  // it: a lease is never taken over while it stands.
  lemma ReturnedBetweenClaims(moves: seq<Move>, i: nat, j: nat, b: Id)
    requires i < j && ClaimsAt(moves, i, b) && ClaimsAt(moves, j, b)
    ensures exists k :: i < k < j && Returns(At(moves, k), moves[k], b)
                        && !PendingAt(moves, k, b) && PendingAt(moves, k + 1, b)
  {
    hide Run, Returns, ClaimsAt, PendingAt;
    assert j < |moves| by { ClaimInRange(moves, j, b); }
    ClaimTakesPending(moves, i, b);
    ClaimTakesPending(moves, j, b);
    BecomesPending(moves, i + 1, j, b);
  }

  lemma ClaimInRange(moves: seq<Move>, j: nat, b: Id)
    requires ClaimsAt(moves, j, b)
    ensures j < |moves|
  {
    hide Run;
  }

  lemma {:induction false} BecomesPending(moves: seq<Move>, i: nat, j: nat, b: Id)
    requires i <= j < |moves| && b in At(moves, i).db.batches && !PendingAt(moves, i, b) && PendingAt(moves, j, b)
    ensures exists k :: i <= k < j && Returns(At(moves, k), moves[k], b)
                        && !PendingAt(moves, k, b) && PendingAt(moves, k + 1, b)
    decreases j - i
  {
    hide Run, Returns, Inv, Evolves, MovesAlongEdges;
    RunStep(moves, i);
    OnlyReturnsMakePending(At(moves, i), moves[i], b);
    if !PendingAt(moves, i + 1, b) {
      BecomesPending(moves, i + 1, j, b);
    }
  }

  // --- retry counts -----------------------------------------------------------------------

  // Only a retry bump counts a retry, and only while the batch is processing,
  // failed or leasing: a batch that was released before the bump is not counted.
  lemma RetryCountedExactly(moves: seq<Move>, i: nat, b: Id)
    requires i < |moves| && b in At(moves, i).db.batches
    ensures var s, s' := At(moves, i), At(moves, i + 1);
            && b in s'.db.batches
            && s'.db.batches[b].retryCount
               == s.db.batches[b].retryCount
                  + if CountsRetry(s.db, moves[i], b) then 1 else 0
  {
    hide Run, Inv, DbInv, WorkerOk, StepWorker, CountsOk, Surroundings, NoteAnswered, Evolves, MovesAlongEdges;
    RunStep(moves, i);
    var s := At(moves, i);
    match moves[i] {
      case StepOf(w, o) =>
        if w in s.workers {
          CallIsOk(s, w);
          if WritesBatch(s.workers[w], b) {
            BatchWriteOf(s.db, s.now, s.workers[w], o, b);
          } else {
            BatchUntouched(s.db, s.now, s.workers[w], o, b);
          }
        }
      case _ => SurroundingsOnBatch(s, moves[i], b);
    }
  }

  // --- completion -------------------------------------------------------------------------

  // The batch as the call reloaded it, and what has become of it since.
  ghost predicate BatchRead(db: Db, b: Id, batch: Batch) {
    b in db.batches && BatchEvolves(batch, db.batches[b])
  }

  ghost predicate ReadOk(db: Db, w: Worker) {
    match w
    case PbList(b, batch) => BatchRead(db, b, batch)
    case PbResolve(b, batch, _) => BatchRead(db, b, batch)
    case PbFinish(b, batch, _) => BatchRead(db, b, batch)
    case _ => true
  }

  ghost predicate AllRead(s: Sys) {
    forall w | w in s.workers :: ReadOk(s.db, s.workers[w])
  }

  lemma BatchReadStays(db: Db, db': Db, b: Id, batch: Batch)
    requires Evolves(db, db') && BatchRead(db, b, batch)
    ensures BatchRead(db', b, batch)
  {
    assert BatchEvolves(db.batches[b], db'.batches[b]);
  }

  lemma ReadStays(db: Db, db': Db, w: Worker)
    requires Evolves(db, db') && ReadOk(db, w)
    ensures ReadOk(db', w)
  {
    hide Evolves, BatchRead;
    match w {
      case PbList(b, batch) => BatchReadStays(db, db', b, batch);
      case PbResolve(b, batch, _) => BatchReadStays(db, db', b, batch);
      case PbFinish(b, batch, _) => BatchReadStays(db, db', b, batch);
      case _ =>
    }
  }

  // A step keeps the batch its call read, or reads it.
  lemma ReadAfterStep(db: Db, now: int, w: Worker, o: Oracle)
    requires ReadOk(db, w)
    ensures ReadOk(db, StepWorker(db, now, w, o).1)
  {
    hide ResolveAll, Lists, Supplies, Backfill, Adjudicate, Correct, BatchEvolves;
    if w.PbReload? && w.batchId in db.batches {
      SameBatch(db.batches[w.batchId]);
    }
  }

  lemma SameBatch(b: Batch)
    ensures BatchEvolves(b, b)
  {
  }

  lemma MoveReads(s: Sys, m: Move)
    requires AllRead(s) && Evolves(s.db, Next(s, m).db)
    ensures AllRead(Next(s, m))
  {
    hide Evolves, ReadOk, StepWorker, NoteAnswered, Surroundings;
    forall w | w in Next(s, m).workers
      ensures ReadOk(Next(s, m).db, Next(s, m).workers[w])
    {
      if w in s.workers {
        if m.StepOf? && m.worker == w {
          ReadAfterStep(s.db, s.now, s.workers[w], m.oracle);
          ReadStays(s.db, Next(s, m).db, StepWorker(s.db, s.now, s.workers[w], m.oracle).1);
        } else {
          ReadStays(s.db, Next(s, m).db, s.workers[w]);
        }
      } else {
        SpawnReadsNothing(s, m, w);
      }
    }
  }

  lemma SpawnReadsNothing(s: Sys, m: Move, w: nat)
    requires w !in s.workers && w in Next(s, m).workers
    ensures ReadOk(Next(s, m).db, Next(s, m).workers[w])
  {
  }

  lemma {:induction false} RunReads(moves: seq<Move>, i: nat)
    requires i <= |moves|
    ensures AllRead(At(moves, i))
  {
    hide Run, Next, Inv, Evolves, ReadOk, MovesAlongEdges;
    if i == 0 {
      assert moves[..0] == [];
      assert At(moves, 0) == Init() by { NothingRun(); }
    } else {
      RunReads(moves, i - 1);
      RunStep(moves, i - 1);
      MoveReads(At(moves, i - 1), moves[i - 1]);
    }
  }

  lemma NothingRun()
    ensures Run(Init(), []) == Init()
  {
  }

  // In every run: a batch is completed exactly when nobody wrote its row since the
  // call reloaded it. Otherwise nothing is written, although its records have been
  // resolved already.
  lemma CompletionAtCommit(moves: seq<Move>, i: nat, w: nat)
    requires StepsAt(moves, i, w) && At(moves, i).workers[w].PbFinish?
    ensures var s, s', call := At(moves, i), At(moves, i + 1), At(moves, i).workers[w];
            && call.batchId in s.db.batches && w in s'.workers
            && (s'.workers[w] == Done(None) <==> s.db.batches[call.batchId] == call.batch)
            && if w in s'.workers && s'.workers[w] == Done(None) then
                 s'.db == s.db.(batches := s.db.batches[call.batchId := call.batch.(
                   processedCount := call.processed, status := BatchCompleted, version := call.batch.version + 1)])
               else s'.db == s.db && s'.workers[w] == Done(Some(VersionConflict))
  {
    hide Run, DbInv, WorkerOk;
    StepFacts(moves, i, w);
    RunReads(moves, i);
    assert ReadOk(At(moves, i).db, At(moves, i).workers[w]);
  }
}
