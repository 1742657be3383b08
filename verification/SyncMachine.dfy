// The sync service under concurrency. Every worker runs one service call; each
// statement outside InTx and each InTx body is one atomic step; steps of any
// number of workers, lease reclaims, foreign releases, retries, dead-lettering,
// registry writes, crashes and the passing of time interleave freely.
module SyncMachine {
  import opened Common
  import opened Status
  import opened SyncDb
  import opened SyncInv
  import opened SyncTx
  import opened Replay
  import ReplayOrder
  import Statements = SyncStatements

  // A call in progress: its program counter and its local snapshots.
  datatype Worker =
    // ProcessBatch
    | PbStart(batchId: Id, owner: Id, ttl: int)
    | PbClaim(batchId: Id, owner: Id, leaseUntil: int)
    | PbReload(batchId: Id)
    | PbList(batchId: Id, batch: Batch)
    | PbResolve(batchId: Id, batch: Batch, rows: seq<Record>)
    | PbRelease(batchId: Id, cause: Error)
    | PbFinish(batchId: Id, batch: Batch, processed: nat)
    // ManualVerify
    | MvStart(recordId: Id, reviewer: Id, decision: Decision)
    | MvManual(record: Record, reviewer: Id, decision: Decision)
    | MvReview(record: Record, manual: Manual, reviewer: Id, decision: Decision)
    | MvRecord(record: Record, manualId: Id, decision: Decision)
    // Adjudicate
    | AdStart(recordId: Id, winner: Winner, adjudicator: Id, freshId: Id)
    | AdExisting(record: Record)
    | AdHours(record: Record, winner: Winner, adjudicator: Id, freshId: Id)
    | AdRule(record: Record, hours: WorkHour, winner: Winner, adjudicator: Id, freshId: Id)
    // CorrectRecord
    | CoStart(recordId: Id, newHours: real)
    | CoApply(record: Record, newHours: real)
    // RevokeRecord
    | ReStart(recordId: Id)
    | ReApply(record: Record)
    // Backfill
    | BfStart(orderId: Id, inputs: seq<Input>, batchId: Id, freshIds: seq<Id>)
    | BfReplay(orderId: Id, batchId: Id, rows: seq<Record>)
    // returned
    | Done(failure: Option<Error>)
  {
    predicate IsStart() {
      PbStart? || MvStart? || AdStart? || CoStart? || ReStart? || BfStart?
    }
  }

  // What the surroundings supply to a step: whether the driver fails it, the
  // order in which a listing returns its rows, and the clock readings and uuids
  // a transaction draws.
  datatype Oracle = Oracle(fail: bool, order: seq<Id>, clocks: seq<int>, freshIds: seq<Id>)

  datatype Move =
    | Spawn(worker: nat, call: Worker)
    | StepOf(worker: nat, oracle: Oracle)
    | Crash(worker: nat)
    | Tick(now: int)
    | Reclaim
    | ForeignRelease(batchId: Id)
    | BumpRetry(batchId: Id, nextRetry: int)
    | MarkPermanent(batchId: Id)
    | UpsertHours(hoursId: Id, deviceId: Id, day: int, hours: real)
    | AddOrder(orderId: Id, windowHours: int)
    | AbortOrder(orderId: Id)
    | AddDevice(deviceId: Id)
    | AddPerson(personId: Id)

  // answered is a history variable: for each batch, how many inputs of its
  // submission were answered from rows already stored.
  datatype Sys = Sys(db: Db, now: int, workers: map<nat, Worker>, answered: map<Id, nat>)

  function EmptyDb(): Db {
    Db(map[], {}, {}, map[], map[], map[], map[], map[], map[], map[], 1, map[])
  }

  function Init(): Sys {
    Sys(EmptyDb(), 0, map[], map[])
  }

  // --- the programs ----------------------------------------------------------

  // The rows of a batch in the order the listing returns them.
  predicate Lists(db: Db, batchId: Id, order: seq<Id>) {
    && (forall i, j | 0 <= i < j < |order| :: order[i] != order[j])
    && (set i | 0 <= i < |order| :: order[i]) == db.RowsOf(batchId)
  }

  function Fetch(db: Db, order: seq<Id>): (rows: seq<Record>)
    requires forall i | 0 <= i < |order| :: order[i] in db.records
  {
    seq(|order|, i requires 0 <= i < |order| => db.records[order[i]])
  }

  // One clock reading and one uuid per row, readings never going back.
  predicate Supplies(o: Oracle, n: nat, now: int) {
    && |o.clocks| == n && |o.freshIds| == n
    && (forall i | 0 <= i < n :: now <= o.clocks[i])
    && (forall i, j | 0 <= i < j < n :: o.clocks[i] <= o.clocks[j])
  }

  function Work(rows: seq<Record>, o: Oracle): (work: seq<Resolution>)
    requires |o.clocks| == |rows| && |o.freshIds| == |rows|
  {
    seq(|rows|, i requires 0 <= i < |rows| => Resolution(rows[i], o.clocks[i], o.freshIds[i]))
  }

  // The rows Backfill builds from the sorted inputs.
  function Rows(orderId: Id, batchId: Id, inputs: seq<Input>, ids: seq<Id>, now: int): (rows: seq<Record>)
    requires |ids| == |inputs| && forall i | 0 <= i < |inputs| :: ValidInput(inputs[i])
  {
    seq(|inputs|, i requires 0 <= i < |inputs| && ValidInput(inputs[i]) => NewRecord(ids[i], orderId, batchId, inputs[i], now))
  }

  function Returned(r: Result<Db>): Worker {
    if r.Ok? then Done(None) else Done(Some(r.error))
  }

  // InTx: the tables after a committed or rolled-back transaction.
  function InTx(db: Db, r: Result<Db>): Db {
    if r.Ok? then r.value else db
  }

  // One atomic step of a call. A step the oracle does not fit is not taken.
  function StepWorker(db: Db, now: int, w: Worker, o: Oracle): (Db, Worker) {
    match w
    case PbStart(b, owner, ttl) => (db, PbClaim(b, owner, now + ttl))
    case PbClaim(b, owner, until) =>
      var r := db.ClaimLease(b, owner, until);
      (InTx(db, r), if r.Ok? then PbReload(b) else Done(Some(LeaseHeld)))
    case PbReload(b) =>
      (db, if b in db.batches then PbList(b, db.batches[b]) else Done(Some(NotFound)))
    case PbList(batchId, batch) =>
      if o.fail then (db, PbRelease(batchId, Driver))
      else if Lists(db, batchId, o.order) then (db, PbResolve(batchId, batch, FetchListed(db, batchId, o.order)))
      else (db, w)
    case PbResolve(batchId, batch, rows) =>
      if o.fail then (db, PbRelease(batchId, Driver))
      else if !Supplies(o, |rows|, now) then (db, w)
      else
        var r := ResolveAll(db, Work(rows, o));
        (InTx(db, r), if r.Ok? then PbFinish(batchId, batch, |rows|) else PbRelease(batchId, r.error))
    case PbRelease(b, cause) => (InTx(db, db.ReleaseLease(b)), Done(Some(cause)))
    case PbFinish(batchId, batch, processed) =>
      var r := db.UpdateBatchProgress(batchId, processed, BatchCompleted, batch.version);
      (InTx(db, r), Returned(r))
    case MvStart(id, reviewer, decision) =>
      (db, if id in db.records then MvManual(db.records[id], reviewer, decision) else Done(Some(NotFound)))
    case MvManual(r, reviewer, decision) =>
      (db, match db.ManualByRecord(r.id)
           case None => Done(Some(NotFound))
           case Some(m) =>
             if r.status != AwaitingReview then
               (if (r.status == Verified || r.status == Revoked) && m.reviewed then Done(None)
                else Done(Some(IllegalTransition)))
             else if m.reviewed then Done(None)
             else MvReview(r, m, reviewer, decision))
    case MvReview(r, m, reviewer, decision) =>
      var reviewed := db.ReviewManual(m.id, reviewer, decision, m.version);
      (InTx(db, reviewed), if reviewed.Ok? then MvRecord(r, m.id, decision) else Done(Some(VersionConflict)))
    case MvRecord(r, _, decision) =>
      var updated := db.UpdateRecordStatus(
        r.id, AwaitingReview, if decision == Reject then Revoked else Verified, r.version);
      (InTx(db, updated), Returned(updated))
    case AdStart(id, winner, adjudicator, freshId) =>
      (db, if id !in db.records then Done(Some(NotFound))
           else if db.records[id].status == Adjudicated then AdExisting(db.records[id])
           else if db.records[id].status != Conflict then Done(Some(IllegalTransition))
           else if db.records[id].conflictId.None? then Done(Some(Incomplete))
           else AdHours(db.records[id], winner, adjudicator, freshId))
    case AdExisting(r) =>
      (db, if r.id in db.rulings then Done(None) else Done(Some(IllegalTransition)))
    case AdHours(r, winner, adjudicator, freshId) =>
      (db, if r.Day() in db.workHours then AdRule(r, db.workHours[r.Day()], winner, adjudicator, freshId)
           else Done(Some(NotFound)))
    case AdRule(r, wh, winner, adjudicator, freshId) =>
      var ruled := Adjudicate(db, r, wh, winner, adjudicator, freshId);
      (InTx(db, ruled), Returned(ruled))
    case CoStart(id, hours) =>
      (db, if id !in db.records then Done(Some(NotFound))
           else if db.records[id].status == Revoked then Done(Some(IllegalTransition))
           else CoApply(db.records[id], hours))
    case CoApply(r, hours) =>
      var corrected := Correct(db, r, hours);
      (InTx(db, corrected), Returned(corrected))
    case ReStart(id) =>
      (db, if id !in db.records then Done(Some(NotFound))
           else if db.records[id].status == Revoked then Done(None)
           else if !AssertTransition(recordTransitions, db.records[id].status, Revoked) then Done(Some(IllegalTransition))
           else ReApply(db.records[id]))
    case ReApply(r) =>
      var revoked := db.UpdateRecordStatus(r.id, r.status, Revoked, r.version);
      (InTx(db, revoked), Returned(revoked))
    case BfStart(orderId, inputs, batchId, ids) =>
      (db, if inputs == [] then Done(Some(Validation))
           else if orderId !in db.orders then Done(Some(NotFound))
           else if db.orders[orderId].aborted then Done(Some(IllegalTransition))
           else
             var sorted := ReplayOrder.SortStable(inputs);
             if exists i | 0 <= i < |sorted| :: !ValidInput(sorted[i]) then Done(Some(Validation))
             else if |ids| != |sorted| then w
             else BfReplay(orderId, batchId, Rows(orderId, batchId, sorted, ids, now)))
    case BfReplay(orderId, batchId, rows) =>
      var replayed := Backfill(db, orderId, batchId, rows);
      (InTx(db, replayed), Returned(replayed))
    case Done(_) => (db, w)
  }

  function FetchListed(db: Db, batchId: Id, order: seq<Id>): seq<Record>
    requires Lists(db, batchId, order)
  {
    assert forall i | 0 <= i < |order| :: order[i] in db.RowsOf(batchId);
    Fetch(db, order)
  }

  // --- the machine -------------------------------------------------------------

  // The inputs of a submission whose row was stored before they were reached.
  ghost function AnsweredFromStored(db: Db, rows: seq<Record>): nat {
    |set i | 0 <= i < |rows| && !FirstNew(db, rows, i)|
  }

  ghost function NoteAnswered(s: Sys, w: Worker): map<Id, nat> {
    if w.BfReplay? && Backfill(s.db, w.orderId, w.batchId, w.rows).Ok? && !AllKnown(s.db, w.rows) then
      s.answered[w.batchId := AnsweredFromStored(s.db, w.rows)]
    else
      s.answered
  }

  // Readings a transaction took move the clock on.
  function ClockAfter(now: int, w: Worker, o: Oracle): int {
    if w.PbResolve? && Supplies(o, |w.rows|, now) && 0 < |o.clocks| then o.clocks[|o.clocks| - 1] else now
  }

  // The tables after a move that is not a worker's step.
  function Surroundings(s: Sys, m: Move): Db {
    match m
    case Reclaim => s.db.ReclaimExpired(s.now)
    case ForeignRelease(b) => InTx(s.db, s.db.ReleaseLease(b))
    case BumpRetry(b, nextRetry) => s.db.BumpBatchRetry(b, nextRetry)
    case MarkPermanent(b) => InTx(s.db, s.db.MarkBatchPermanent(b))
    case UpsertHours(id, device, day, hours) => InTx(s.db, s.db.UpsertWorkHour(id, device, day, hours))
    case AddOrder(id, window) =>
      if id in s.db.orders then s.db else s.db.(orders := s.db.orders[id := Order(window, false)])
    case AbortOrder(id) =>
      if id in s.db.orders then s.db.(orders := s.db.orders[id := s.db.orders[id].(aborted := true)]) else s.db
    case AddDevice(id) => s.db.(devices := s.db.devices + {id})
    case AddPerson(id) => s.db.(persons := s.db.persons + {id})
    case Spawn(_, _) => s.db
    case StepOf(_, _) => s.db
    case Crash(_) => s.db
    case Tick(_) => s.db
  }

  // A move that is not enabled leaves the system as it is.
  ghost function Next(s: Sys, m: Move): Sys {
    match m
    case Spawn(w, call) =>
      if w !in s.workers && call.IsStart() then s.(workers := s.workers[w := call]) else s
    case StepOf(w, o) =>
      if w !in s.workers then s
      else
        var (db', w') := StepWorker(s.db, s.now, s.workers[w], o);
        Sys(db', ClockAfter(s.now, s.workers[w], o), s.workers[w := w'], NoteAnswered(s, s.workers[w]))
    case Crash(w) => s.(workers := s.workers - {w})
    case Tick(now) => s.(now := Max(now, s.now))
    case _ => s.(db := Surroundings(s, m))
  }

  ghost function Run(s: Sys, moves: seq<Move>): Sys {
    if moves == [] then s else Next(Run(s, moves[..|moves| - 1]), moves[|moves| - 1])
  }

  // --- what a call knows while it runs -----------------------------------------

  // Snapshots were true once; what a call did already is in the tables.
  ghost predicate WorkerOk(db: Db, w: Worker) {
    match w
    case PbList(batchId, batch) => batchId in db.batches
    case PbResolve(batchId, batch, rows) =>
      && batchId in db.batches
      && (forall i | 0 <= i < |rows| :: Snap(db, rows[i]))
      && (forall i, j | 0 <= i < j < |rows| :: rows[i].id != rows[j].id)
      && (set i | 0 <= i < |rows| :: rows[i].id) == db.RowsOf(batchId)
    case PbFinish(batchId, batch, processed) =>
      batchId in db.batches && Settled(db, batchId) && processed == |db.RowsOf(batchId)|
    case MvManual(r, _, _) => Snap(db, r) && (r.status == AwaitingReview ==> r.manualId.Some?)
    case MvReview(r, m, _, _) =>
      && Snap(db, r) && r.status == AwaitingReview && r.manualId == Some(m.id)
      && ManualSnap(db, m) && !m.reviewed
    case MvRecord(r, id, decision) =>
      && Snap(db, r) && r.status == AwaitingReview && r.manualId == Some(id)
      && id in db.manuals && db.manuals[id].reviewed && db.manuals[id].decision == Some(decision)
    case AdExisting(r) => Snap(db, r)
    case AdHours(r, _, _, _) =>
      && Snap(db, r) && r.status == Conflict
      && r.Day() in db.workHours && r.conflictId == Some(db.workHours[r.Day()].id)
    case AdRule(r, wh, _, _, _) => Snap(db, r) && r.status == Conflict && r.conflictId == Some(wh.id)
    case CoApply(r, _) => Snap(db, r)
    case ReApply(r) => Snap(db, r) && RecordEdge(r.status, Revoked)
    case BfReplay(orderId, batchId, rows) => ForBatch(rows, orderId, batchId)
    case _ => true
  }

  lemma SnapStable(db: Db, db': Db, r: Record)
    requires RecordsEvolve(db, db') && Snap(db, r)
    ensures Snap(db', r)
  {
    assert RecordEvolves(db.records[r.id], db'.records[r.id]);
  }

  lemma ManualSnapStable(db: Db, db': Db, m: Manual)
    requires Evolves(db, db') && ManualSnap(db, m)
    ensures ManualSnap(db', m)
  {
    assert ManualEvolves(db.manuals[m.id], db'.manuals[m.id]);
  }

  lemma ResolveStable(db: Db, db': Db, w: Worker)
    requires RecordsEvolve(db, db') && w.PbResolve? && WorkerOk(db, w)
    ensures forall i | 0 <= i < |w.rows| :: Snap(db', w.rows[i])
    ensures db'.RowsOf(w.batchId) == db.RowsOf(w.batchId)
  {
    hide RecordsEvolve, Snap;
    forall i | 0 <= i < |w.rows|
      ensures Snap(db', w.rows[i])
    {
      SnapStable(db, db', w.rows[i]);
    }
    RowsFixed(db, db', w.batchId);
  }

  lemma ReviewedStable(db: Db, db': Db, id: Id)
    requires Evolves(db, db') && id in db.manuals && db.manuals[id].reviewed
    ensures id in db'.manuals && db'.manuals[id] == db.manuals[id]
  {
    assert ManualEvolves(db.manuals[id], db'.manuals[id]);
  }

  // What a call knows survives the steps of everyone else.
  lemma WorkerStable(db: Db, db': Db, w: Worker)
    requires Evolves(db, db') && WorkerOk(db, w)
    ensures WorkerOk(db', w)
  {
    hide RecordsEvolve, Snap, ManualSnap, Settled, ManualEvolves, BatchEvolves;
    match w {
      case PbResolve(_, _, _) => ResolveStable(db, db', w);
      case PbFinish(batchId, _, _) => RowsFixed(db, db', batchId);
      case MvManual(r, _, _) => SnapStable(db, db', r);
      case MvReview(r, m, _, _) =>
        SnapStable(db, db', r);
        ManualSnapStable(db, db', m);
      case MvRecord(r, id, _) =>
        SnapStable(db, db', r);
        ReviewedStable(db, db', id);
      case AdExisting(r) => SnapStable(db, db', r);
      case AdHours(r, _, _, _) => SnapStable(db, db', r);
      case AdRule(r, _, _, _, _) => SnapStable(db, db', r);
      case CoApply(r, _) => SnapStable(db, db', r);
      case ReApply(r) => SnapStable(db, db', r);
      case _ =>
    }
  }

  // --- one step ----------------------------------------------------------------

  ghost predicate StepOk(db: Db, db': Db, w': Worker) {
    GoodStep(db, db') && WorkerOk(db', w')
  }

  lemma StoredIsLinked(db: Db, id: Id)
    requires DbInv(db) && id in db.records
    ensures Snap(db, db.records[id]) && Linked(db, db.records[id]) && db.records[id].id == id
  {
    assert RecordOk(db, id);
  }

  // A row a call has just read.
  lemma ReadForVerify(db: Db, now: int, w: Worker, o: Oracle)
    requires DbInv(db) && w.MvStart?
    ensures WorkerOk(db, StepWorker(db, now, w, o).1)
  {
    hide DbInv, Snap;
    if w.recordId in db.records {
      StoredIsLinked(db, w.recordId);
    }
  }

  lemma ReadForRuling(db: Db, now: int, w: Worker, o: Oracle)
    requires DbInv(db) && w.AdStart?
    ensures WorkerOk(db, StepWorker(db, now, w, o).1)
  {
    hide DbInv, Snap;
    if w.recordId in db.records {
      StoredIsLinked(db, w.recordId);
    }
  }

  lemma ReadForCorrection(db: Db, now: int, w: Worker, o: Oracle)
    requires DbInv(db) && w.CoStart?
    ensures WorkerOk(db, StepWorker(db, now, w, o).1)
  {
    hide DbInv, Snap;
    if w.recordId in db.records {
      StoredIsLinked(db, w.recordId);
    }
  }

  lemma ReadForRevocation(db: Db, now: int, w: Worker, o: Oracle)
    requires DbInv(db) && w.ReStart?
    ensures WorkerOk(db, StepWorker(db, now, w, o).1)
  {
    hide DbInv, Snap;
    if w.recordId in db.records {
      StoredIsLinked(db, w.recordId);
      RecordEdgeIsTheTable(db.records[w.recordId].status, Revoked);
    }
  }

  lemma ReadManual(db: Db, now: int, w: Worker, o: Oracle)
    requires DbInv(db) && w.MvManual? && WorkerOk(db, w)
    ensures WorkerOk(db, StepWorker(db, now, w, o).1)
  {
    hide DbInv, Snap;
    var r := w.record;
    assert r.id in db.records && RecordEvolves(r, db.records[r.id]) by { SnapGives(db, r); }
    StoredIsLinked(db, r.id);
    if db.ManualByRecord(r.id).Some? {
      ManualStored(db, r.id);
    }
  }

  lemma SnapGives(db: Db, r: Record)
    requires Snap(db, r)
    ensures r.id in db.records && RecordEvolves(r, db.records[r.id])
  {
  }

  lemma ManualStored(db: Db, recordId: Id)
    requires DbInv(db) && db.ManualByRecord(recordId).Some?
    ensures ManualSnap(db, db.ManualByRecord(recordId).value)
  {
  }

  lemma ListStep(db: Db, now: int, w: Worker, o: Oracle)
    requires DbInv(db) && w.PbList? && WorkerOk(db, w)
    ensures WorkerOk(db, StepWorker(db, now, w, o).1)
  {
    hide DbInv, Snap;
    if !o.fail && Lists(db, w.batchId, o.order) {
      var rows := FetchListed(db, w.batchId, o.order);
      forall i | 0 <= i < |rows|
        ensures Snap(db, rows[i]) && rows[i].id == o.order[i]
      {
        assert o.order[i] in db.RowsOf(w.batchId);
        StoredIsLinked(db, o.order[i]);
      }
      assert (set i | 0 <= i < |rows| :: rows[i].id) == (set i | 0 <= i < |o.order| :: o.order[i]);
    }
  }

  // The transaction settles every row of the batch.
  // What a resolved batch's transaction did to one record.
  lemma RowAfterResolve(db: Db, w: Worker, work: seq<Resolution>, db': Db, id: Id)
    requires w.PbResolve? && WorkerOk(db, w) && Outcome(db, work, db') && id in db.records
    requires |work| == |w.rows| && forall i | 0 <= i < |work| :: work[i].row == w.rows[i]
    ensures id in db'.records && db'.records[id].batchId == db.records[id].batchId
    ensures id in db.RowsOf(w.batchId) ==> db'.records[id].status != Pending
  {
    hide Linked, RuleIn;
    if i :| 0 <= i < |work| && work[i].row.id == id {
      assert Decided(db, work[i], db');
      assert Snap(db, w.rows[i]);
    } else {
      assert id !in (set i | 0 <= i < |w.rows| :: w.rows[i].id);
    }
  }

  lemma ResolveSettles(db: Db, w: Worker, work: seq<Resolution>, db': Db)
    requires w.PbResolve? && WorkerOk(db, w) && Outcome(db, work, db')
    requires |work| == |w.rows| && forall i | 0 <= i < |work| :: work[i].row == w.rows[i]
    ensures db'.RowsOf(w.batchId) == db.RowsOf(w.batchId) && Settled(db', w.batchId)
  {
    hide WorkerOk, Decided;
    assert db'.records.Keys == db.records.Keys;
    forall id | id in db.records
      ensures db'.records[id].batchId == db.records[id].batchId
      ensures id in db.RowsOf(w.batchId) ==> db'.records[id].status != Pending
    {
      RowAfterResolve(db, w, work, db', id);
    }
  }

  lemma WorkFacts(rows: seq<Record>, o: Oracle)
    requires |o.clocks| == |rows| && |o.freshIds| == |rows|
    ensures |Work(rows, o)| == |rows| && forall i | 0 <= i < |rows| :: Work(rows, o)[i].row == rows[i]
  {
  }

  lemma ResolveStep(db: Db, now: int, w: Worker, o: Oracle)
    requires DbInv(db) && w.PbResolve? && WorkerOk(db, w)
    ensures StepOk(db, StepWorker(db, now, w, o).0, StepWorker(db, now, w, o).1)
  {
    hide DbInv, GoodStep, Snap, Outcome, Settled, ResolveAll;
    if o.fail || !Supplies(o, |w.rows|, now) || ResolveAll(db, Work(w.rows, o)).Err? {
      StandsStill(db);
    } else {
      var work := Work(w.rows, o);
      WorkFacts(w.rows, o);
      ResolveAllGood(db, work);
      ResolveSettles(db, w, work, ResolveAll(db, work).value);
      RowsCounted(w.rows);
      BatchesStay(db, work, ResolveAll(db, work).value);
    }
  }

  lemma BatchesStay(db: Db, work: seq<Resolution>, db': Db)
    requires Outcome(db, work, db')
    ensures db'.batches == db.batches
  {
  }

  // Distinct rows: the count of the listing is the count of the batch.
  lemma {:induction false} RowsCounted(rows: seq<Record>)
    requires forall i, j | 0 <= i < j < |rows| :: rows[i].id != rows[j].id
    ensures |set i | 0 <= i < |rows| :: rows[i].id| == |rows|
  {
    if rows != [] {
      var n := |rows| - 1;
      RowsCounted(rows[..n]);
      assert (set i | 0 <= i < |rows| :: rows[i].id)
          == (set i | 0 <= i < n :: rows[..n][i].id) + {rows[n].id};
      assert rows[n].id !in (set i | 0 <= i < n :: rows[..n][i].id);
    }
  }

  lemma LeaseStep(db: Db, now: int, w: Worker, o: Oracle)
    requires DbInv(db) && (w.PbClaim? || w.PbRelease? || w.PbFinish?) && WorkerOk(db, w)
    ensures StepOk(db, StepWorker(db, now, w, o).0, StepWorker(db, now, w, o).1)
  {
    hide DbInv, GoodStep, Settled;
    StandsStill(db);
    match w {
      case PbClaim(b, owner, until) =>
        if db.ClaimLease(b, owner, until).Ok? {
          Statements.ClaimGood(db, b, owner, until);
        }
      case PbRelease(b, _) =>
        if db.ReleaseLease(b).Ok? {
          Statements.ReleaseGood(db, b);
        }
      case PbFinish(batchId, batch, processed) =>
        if db.UpdateBatchProgress(batchId, processed, BatchCompleted, batch.version).Ok? {
          Statements.ProgressGood(db, batchId, processed, batch.version);
        }
    }
  }

  lemma ReviewStep(db: Db, now: int, w: Worker, o: Oracle)
    requires DbInv(db) && w.MvReview? && WorkerOk(db, w)
    ensures StepOk(db, StepWorker(db, now, w, o).0, StepWorker(db, now, w, o).1)
  {
    hide DbInv, GoodStep, ManualSnap, RecordEvolves;
    if db.ReviewManual(w.manual.id, w.reviewer, w.decision, w.manual.version).Ok? {
      ReviewGood(db, w.manual, w.reviewer, w.decision);
    } else {
      StandsStill(db);
    }
  }

  // By the time the record is moved, its manual row carries the same decision.
  lemma DecisionStands(db: Db, r: Record, id: Id, decision: Decision)
    requires DbInv(db) && r.id in db.records && db.records[r.id] == r && r.manualId == Some(id)
    requires id in db.manuals && db.manuals[id].decision == Some(decision)
    ensures db.ManualByRecord(r.id).Some? && db.ManualByRecord(r.id).value.decision == Some(decision)
  {
    assert RecordOk(db, r.id);
    assert Linked(db, r);
  }

  lemma VerifyStep(db: Db, now: int, w: Worker, o: Oracle)
    requires DbInv(db) && w.MvRecord? && WorkerOk(db, w)
    ensures StepOk(db, StepWorker(db, now, w, o).0, StepWorker(db, now, w, o).1)
  {
    hide DbInv, GoodStep;
    var r, dst := w.record, if w.decision == Reject then Revoked else Verified;
    if db.UpdateRecordStatus(r.id, AwaitingReview, dst, r.version).Ok? {
      SnapIsCurrent(db, r);
      DecisionStands(db, r, w.manualId, w.decision);
      MoveGood(db, r, dst);
    } else {
      StandsStill(db);
    }
  }

  lemma RuleStep(db: Db, now: int, w: Worker, o: Oracle)
    requires DbInv(db) && w.AdRule? && WorkerOk(db, w)
    ensures StepOk(db, StepWorker(db, now, w, o).0, StepWorker(db, now, w, o).1)
  {
    hide DbInv, GoodStep, Snap;
    if Adjudicate(db, w.record, w.hours, w.winner, w.adjudicator, w.freshId).Ok? {
      AdjudicateGood(db, w.record, w.hours, w.winner, w.adjudicator, w.freshId);
    } else {
      StandsStill(db);
    }
  }

  lemma CorrectStep(db: Db, now: int, w: Worker, o: Oracle)
    requires DbInv(db) && w.CoApply? && WorkerOk(db, w)
    ensures StepOk(db, StepWorker(db, now, w, o).0, StepWorker(db, now, w, o).1)
  {
    hide DbInv, GoodStep, Snap, Correct;
    if Correct(db, w.record, w.newHours).Ok? {
      CorrectGood(db, w.record, w.newHours);
    } else {
      StandsStill(db);
    }
  }

  lemma RevokeStep(db: Db, now: int, w: Worker, o: Oracle)
    requires DbInv(db) && w.ReApply? && WorkerOk(db, w)
    ensures StepOk(db, StepWorker(db, now, w, o).0, StepWorker(db, now, w, o).1)
  {
    hide DbInv, GoodStep, Snap;
    if db.UpdateRecordStatus(w.record.id, w.record.status, Revoked, w.record.version).Ok? {
      MoveGood(db, w.record, Revoked);
    } else {
      StandsStill(db);
    }
  }

  lemma ReplayStep(db: Db, now: int, w: Worker, o: Oracle)
    requires DbInv(db) && w.BfReplay? && WorkerOk(db, w)
    ensures StepOk(db, StepWorker(db, now, w, o).0, StepWorker(db, now, w, o).1)
  {
    hide DbInv, GoodStep, Backfill, AllKnown, Replayed;
    var replayed := Backfill(db, w.orderId, w.batchId, w.rows);
    if replayed.Err? || AllKnown(db, w.rows) {
      StandsStill(db);
      KnownChangesNothing(db, w.orderId, w.batchId, w.rows);
    } else {
      BackfillReplays(db, w.orderId, w.batchId, w.rows);
      ReplayGood(db, w.orderId, w.batchId, w.rows, replayed.value);
    }
  }

  // A fully known submission changes nothing.
  lemma KnownChangesNothing(db: Db, orderId: Id, batchId: Id, rows: seq<Record>)
    ensures AllKnown(db, rows) ==> Backfill(db, orderId, batchId, rows) == Ok(db)
  {
  }

  lemma BackfillStarts(db: Db, now: int, w: Worker, o: Oracle)
    requires w.BfStart?
    ensures WorkerOk(db, StepWorker(db, now, w, o).1)
  {
  }

  lemma ReadsOnly(db: Db, now: int, w: Worker, o: Oracle)
    requires w.PbStart? || w.PbReload? || w.PbList? || w.MvStart? || w.MvManual? || w.AdStart? || w.AdExisting?
             || w.AdHours? || w.CoStart? || w.ReStart? || w.BfStart? || w.Done?
    ensures StepWorker(db, now, w, o).0 == db
  {
  }

  lemma ReadStep(db: Db, now: int, w: Worker, o: Oracle)
    requires DbInv(db) && WorkerOk(db, w)
    requires w.PbStart? || w.PbReload? || w.PbList? || w.MvStart? || w.MvManual? || w.AdStart? || w.AdExisting?
             || w.AdHours? || w.CoStart? || w.ReStart? || w.BfStart? || w.Done?
    ensures StepOk(db, StepWorker(db, now, w, o).0, StepWorker(db, now, w, o).1)
  {
    hide DbInv, GoodStep, Snap;
    StandsStill(db);
    ReadsOnly(db, now, w, o);
    match w {
      case PbList(_, _) => ListStep(db, now, w, o);
      case MvStart(_, _, _) => ReadForVerify(db, now, w, o);
      case MvManual(_, _, _) => ReadManual(db, now, w, o);
      case AdStart(_, _, _, _) => ReadForRuling(db, now, w, o);
      case CoStart(_, _) => ReadForCorrection(db, now, w, o);
      case ReStart(_) => ReadForRevocation(db, now, w, o);
      case BfStart(_, _, _, _) => BackfillStarts(db, now, w, o);
      case PbReload(b) => ReloadStep(db, now, w, o);
      case _ =>
    }
  }

  lemma ReloadStep(db: Db, now: int, w: Worker, o: Oracle)
    requires DbInv(db) && w.PbReload?
    ensures WorkerOk(db, StepWorker(db, now, w, o).1)
  {
    if w.batchId in db.batches {
      assert BatchOk(db, w.batchId);
    }
  }

  // Any step of any call keeps the invariant and what the call knows.
  lemma WorkerStep(db: Db, now: int, w: Worker, o: Oracle)
    requires DbInv(db) && WorkerOk(db, w)
    ensures StepOk(db, StepWorker(db, now, w, o).0, StepWorker(db, now, w, o).1)
  {
    hide DbInv, WorkerOk, StepOk, StepWorker;
    match w {
      case PbClaim(_, _, _) => LeaseStep(db, now, w, o);
      case PbRelease(_, _) => LeaseStep(db, now, w, o);
      case PbFinish(_, _, _) => LeaseStep(db, now, w, o);
      case PbResolve(_, _, _) => ResolveStep(db, now, w, o);
      case MvReview(_, _, _, _) => ReviewStep(db, now, w, o);
      case MvRecord(_, _, _) => VerifyStep(db, now, w, o);
      case AdRule(_, _, _, _, _) => RuleStep(db, now, w, o);
      case CoApply(_, _) => CorrectStep(db, now, w, o);
      case ReApply(_) => RevokeStep(db, now, w, o);
      case BfReplay(_, _, _) => ReplayStep(db, now, w, o);
      case _ => ReadStep(db, now, w, o);
    }
  }

  lemma SurroundingsGood(s: Sys, m: Move)
    requires DbInv(s.db)
    ensures GoodStep(s.db, Surroundings(s, m))
  {
    hide DbInv, GoodStep;
    StandsStill(s.db);
    match m {
      case Reclaim => Statements.ReclaimGood(s.db, s.now);
      case ForeignRelease(b) =>
        if s.db.ReleaseLease(b).Ok? {
          Statements.ReleaseGood(s.db, b);
        }
      case BumpRetry(b, nextRetry) => Statements.BumpGood(s.db, b, nextRetry);
      case MarkPermanent(b) =>
        if s.db.MarkBatchPermanent(b).Ok? {
          Statements.PermanentGood(s.db, b);
        }
      case UpsertHours(id, device, day, hours) =>
        if s.db.UpsertWorkHour(id, device, day, hours).Ok? {
          Statements.UpsertHoursGood(s.db, id, device, day, hours);
        }
      case AddOrder(_, _) => Statements.RegistryGood(s.db, Surroundings(s, m));
      case AbortOrder(_) => Statements.RegistryGood(s.db, Surroundings(s, m));
      case AddDevice(_) => Statements.RegistryGood(s.db, Surroundings(s, m));
      case AddPerson(_) => Statements.RegistryGood(s.db, Surroundings(s, m));
      case _ =>
    }
  }

  // --- the invariant of the machine ----------------------------------------------

  // record_count is the rows stored under the batch plus the inputs answered.
  ghost predicate CountsOk(s: Sys) {
    forall b | b in s.db.batches ::
      b in s.answered && s.db.batches[b].recordCount == |s.db.RowsOf(b)| + s.answered[b]
  }

  ghost predicate AllOk(db: Db, workers: map<nat, Worker>) {
    forall w | w in workers :: WorkerOk(db, workers[w])
  }

  ghost predicate Inv(s: Sys) {
    && DbInv(s.db)
    && AllOk(s.db, s.workers)
    && CountsOk(s)
  }

  lemma OthersStable(s: Sys, db': Db)
    requires Evolves(s.db, db') && AllOk(s.db, s.workers)
    ensures AllOk(db', s.workers)
  {
    hide Evolves, WorkerOk;
    forall w | w in s.workers
      ensures WorkerOk(db', s.workers[w])
    {
      WorkerStable(s.db, db', s.workers[w]);
    }
  }

  // Where no batch is opened, the counts stand.
  lemma CountsStand(s: Sys, db': Db)
    requires CountsOk(s) && Evolves(s.db, db') && db'.batches.Keys == s.db.batches.Keys
    ensures CountsOk(s.(db := db'))
  {
    forall b | b in db'.batches
      ensures b in s.answered && db'.batches[b].recordCount == |db'.RowsOf(b)| + s.answered[b]
    {
      RowsFixed(s.db, db', b);
      assert BatchEvolves(s.db.batches[b], db'.batches[b]);
    }
  }

  lemma AnsweredGrows(db: Db, prefix: seq<Record>, r: Record)
    ensures AnsweredFromStored(db, prefix + [r])
            == AnsweredFromStored(db, prefix) + if FirstNew(db, prefix + [r], |prefix|) then 0 else 1
  {
    hide FirstNew;
    var rows, n := prefix + [r], |prefix|;
    forall i | 0 <= i < n
      ensures FirstNew(db, rows, i) == FirstNew(db, prefix, i)
    {
      PrefixSees(db, prefix, r, i);
    }
    var was := set i | 0 <= i < n && !FirstNew(db, prefix, i);
    assert (set i | 0 <= i < |rows| && !FirstNew(db, rows, i)) == was + if FirstNew(db, rows, n) then {} else {n};
  }

  lemma {:induction false} AnsweredComplement(db: Db, rows: seq<Record>)
    ensures CountNew(db, rows) + AnsweredFromStored(db, rows) == |rows|
  {
    hide FirstNew;
    if rows != [] {
      var prefix, r := rows[..|rows| - 1], rows[|rows| - 1];
      assert rows == prefix + [r];
      AnsweredComplement(db, prefix);
      CountLast(db, prefix, r);
      AnsweredGrows(db, prefix, r);
    }
  }

  // The replay opens a batch whose count splits into stored and answered.
  lemma ReplayCounts(s: Sys, w: Worker, db': Db)
    requires DbInv(s.db) && CountsOk(s) && w.BfReplay? && WorkerOk(s.db, w)
    requires Replayed(s.db, w.orderId, w.batchId, w.rows, db') && Evolves(s.db, db')
    ensures CountsOk(s.(db := db', answered := s.answered[w.batchId := AnsweredFromStored(s.db, w.rows)]))
  {
    hide DbInv, Evolves, FirstNew, CountNew, AnsweredFromStored, Filled;
    BatchRows(s.db, w.orderId, w.batchId, w.rows, db');
    AnsweredComplement(s.db, w.rows);
    forall b | b in s.db.batches
      ensures db'.RowsOf(b) == s.db.RowsOf(b)
    {
      RowsStay(s.db, db', b);
    }
  }

  lemma RowsStay(db: Db, db': Db, b: Id)
    requires Evolves(db, db') && b in db.batches
    ensures db'.RowsOf(b) == db.RowsOf(b)
  {
    RowsFixed(db, db', b);
  }

  // --- every move keeps the invariant ----------------------------------------------

  lemma WorkersAfter(s: Sys, w: nat, db': Db, w': Worker)
    requires Evolves(s.db, db') && WorkerOk(db', w') && AllOk(s.db, s.workers)
    ensures AllOk(db', s.workers[w := w'])
  {
    hide Evolves, WorkerOk;
    OthersStable(s, db');
  }

  // Only the replay of a submission opens a batch.
  lemma BatchKeysStay(db: Db, now: int, w: Worker, o: Oracle)
    requires w.BfReplay? ==> Backfill(db, w.orderId, w.batchId, w.rows).Err? || AllKnown(db, w.rows)
    requires w.PbResolve? ==> WorkerOk(db, w) && DbInv(db)
    ensures StepWorker(db, now, w, o).0.batches.Keys == db.batches.Keys
  {
    hide DbInv, AllKnown, Snap;
    match w {
      case PbResolve(batchId, batch, rows) =>
        if !o.fail && Supplies(o, |rows|, now) && ResolveAll(db, Work(rows, o)).Ok? {
          WorkFacts(rows, o);
          ResolveAllGood(db, Work(rows, o));
          BatchesStay(db, Work(rows, o), ResolveAll(db, Work(rows, o)).value);
        }
      case BfReplay(orderId, batchId, rows) => KnownChangesNothing(db, orderId, batchId, rows);
      case PbClaim(_, _, _) => LeaseKeysStay(db, now, w, o);
      case PbRelease(_, _) => LeaseKeysStay(db, now, w, o);
      case PbFinish(_, _, _) => LeaseKeysStay(db, now, w, o);
      case MvReview(_, _, _, _) => RecordWriteKeysStay(db, now, w, o);
      case MvRecord(_, _, _) => RecordWriteKeysStay(db, now, w, o);
      case AdRule(_, _, _, _, _) => RecordWriteKeysStay(db, now, w, o);
      case CoApply(_, _) => RecordWriteKeysStay(db, now, w, o);
      case ReApply(_) => RecordWriteKeysStay(db, now, w, o);
      case _ => ReadsOnly(db, now, w, o);
    }
  }

  // A lease write rewrites one batch row or none.
  lemma LeaseKeysStay(db: Db, now: int, w: Worker, o: Oracle)
    requires w.PbClaim? || w.PbRelease? || w.PbFinish?
    ensures StepWorker(db, now, w, o).0.batches.Keys == db.batches.Keys
  {
    var id := if w.PbFinish? then w.batchId else w.batchId;
    var after := StepWorker(db, now, w, o).0.batches;
    assert after == db.batches || (id in db.batches && id in after && after == db.batches[id := after[id]]) by {
      LeaseRewritesOne(db, now, w, o, id);
    }
  }

  lemma LeaseRewritesOne(db: Db, now: int, w: Worker, o: Oracle, id: Id)
    requires (w.PbClaim? && id == w.batchId) || (w.PbRelease? && id == w.batchId) || (w.PbFinish? && id == w.batchId)
    ensures var after := StepWorker(db, now, w, o).0.batches;
            after == db.batches || (id in db.batches && id in after && after == db.batches[id := after[id]])
  {
  }

  lemma RecordWriteKeysStay(db: Db, now: int, w: Worker, o: Oracle)
    requires w.MvReview? || w.MvRecord? || w.AdRule? || w.CoApply? || w.ReApply?
    ensures StepWorker(db, now, w, o).0.batches == db.batches
  {
  }

  lemma CountsAfterStep(s: Sys, w: nat, o: Oracle)
    requires Inv(s) && w in s.workers
    requires Evolves(s.db, StepWorker(s.db, s.now, s.workers[w], o).0)
    ensures CountsOk(Next(s, StepOf(w, o)))
  {
    hide DbInv, WorkerOk, AllKnown, Evolves, CountsOk, StepWorker, Backfill, Replayed, AnsweredFromStored;
    var call, db' := s.workers[w], StepWorker(s.db, s.now, s.workers[w], o).0;
    if call.BfReplay? && Backfill(s.db, call.orderId, call.batchId, call.rows).Ok? && !AllKnown(s.db, call.rows) {
      ReplayIsTheStep(s.db, s.now, call, o);
      BackfillReplays(s.db, call.orderId, call.batchId, call.rows);
      ReplayCounts(s, call, db');
      SameTables(s.(db := db', answered := NoteAnswered(s, call)), Next(s, StepOf(w, o)));
    } else {
      BatchKeysStay(s.db, s.now, call, o);
      CountsStand(s, db');
      SameTables(s.(db := db'), Next(s, StepOf(w, o)));
    }
  }

  lemma ReplayIsTheStep(db: Db, now: int, w: Worker, o: Oracle)
    requires w.BfReplay? && Backfill(db, w.orderId, w.batchId, w.rows).Ok?
    ensures StepWorker(db, now, w, o).0 == Backfill(db, w.orderId, w.batchId, w.rows).value
  {
  }

  lemma StepKeeps(s: Sys, w: nat, o: Oracle)
    requires Inv(s) && w in s.workers
    ensures Inv(Next(s, StepOf(w, o)))
    ensures Evolves(s.db, Next(s, StepOf(w, o)).db) && MovesAlongEdges(s.db, Next(s, StepOf(w, o)).db)
  {
    hide DbInv, WorkerOk, Evolves, MovesAlongEdges, CountsOk, StepWorker, NoteAnswered;
    WorkerStep(s.db, s.now, s.workers[w], o);
    var (db', w') := StepWorker(s.db, s.now, s.workers[w], o);
    WorkersAfter(s, w, db', w');
    CountsAfterStep(s, w, o);
  }

  lemma BatchKeysStaySurroundings(s: Sys, m: Move)
    ensures Surroundings(s, m).batches.Keys == s.db.batches.Keys
  {
    hide Db.LeaseExpired, Db.HoursIdTaken;
    match m {
      case Reclaim => assert s.db.ReclaimExpired(s.now).batches.Keys == s.db.batches.Keys;
      case ForeignRelease(b) =>
        if s.db.ReleaseLease(b).Ok? {
          RewriteKeepsKeys(s.db.batches, b, Db.Unleased(s.db.batches[b]));
        }
      case BumpRetry(b, nextRetry) =>
        if b in s.db.batches {
          RewriteKeepsKeys(s.db.batches, b, s.db.BumpBatchRetry(b, nextRetry).batches[b]);
        }
      case MarkPermanent(b) =>
        if b in s.db.batches {
          RewriteKeepsKeys(s.db.batches, b, s.db.MarkBatchPermanent(b).value.batches[b]);
        }
      case _ =>
    }
  }

  lemma RewriteKeepsKeys(batches: map<Id, Batch>, b: Id, b': Batch)
    requires b in batches
    ensures batches[b := b'].Keys == batches.Keys
  {
  }

  lemma SurroundingsKeep(s: Sys, m: Move)
    requires Inv(s)
    ensures Inv(s.(db := Surroundings(s, m)))
    ensures Evolves(s.db, Surroundings(s, m)) && MovesAlongEdges(s.db, Surroundings(s, m))
  {
    hide DbInv, WorkerOk, Evolves, MovesAlongEdges, CountsOk, Surroundings;
    SurroundingsGood(s, m);
    OthersStable(s, Surroundings(s, m));
    BatchKeysStaySurroundings(s, m);
    CountsStand(s, Surroundings(s, m));
  }

  lemma NextKeeps(s: Sys, m: Move)
    requires Inv(s)
    ensures Inv(Next(s, m))
    ensures Evolves(s.db, Next(s, m).db) && MovesAlongEdges(s.db, Next(s, m).db)
  {
    hide DbInv, WorkerOk, Evolves, MovesAlongEdges, CountsOk, Surroundings, StepWorker, NoteAnswered;
    EvolvesReflexive(s.db);
    match m {
      case Spawn(w, call) =>
        if call.IsStart() {
          StartKnowsNothing(s.db, call);
        }
        SameTables(s, Next(s, m));
      case StepOf(w, o) =>
        if w in s.workers {
          StepKeeps(s, w, o);
        }
      case Crash(w) => SameTables(s, Next(s, m));
      case Tick(_) => SameTables(s, Next(s, m));
      case _ => SurroundingsKeep(s, m);
    }
  }

  lemma StartKnowsNothing(db: Db, call: Worker)
    requires call.IsStart()
    ensures WorkerOk(db, call)
  {
  }

  lemma SameTables(s: Sys, s': Sys)
    requires CountsOk(s) && s'.db == s.db && s'.answered == s.answered
    ensures CountsOk(s')
  {
  }

  lemma InitInv()
    ensures Inv(Init())
  {
  }

  // Every reachable system is well.
  lemma {:induction false} RunKeeps(moves: seq<Move>)
    ensures Inv(Run(Init(), moves))
  {
    hide Inv, Next;
    if moves == [] {
      InitInv();
    } else {
      RunKeeps(moves[..|moves| - 1]);
      NextKeeps(Run(Init(), moves[..|moves| - 1]), moves[|moves| - 1]);
    }
  }

  // Rows at a later point of a run are evolutions of the rows at an earlier one.
  lemma {:induction false} RunEvolves(moves: seq<Move>, i: nat, j: nat)
    requires i <= j <= |moves|
    ensures Evolves(Run(Init(), moves[..i]).db, Run(Init(), moves[..j]).db)
  {
    hide Inv, Next, Evolves;
    if i == j {
      EvolvesReflexive(Run(Init(), moves[..i]).db);
    } else {
      RunEvolves(moves, i, j - 1);
      RunStep(moves, j - 1);
      EvolvesTransitive(Run(Init(), moves[..i]).db, Run(Init(), moves[..j - 1]).db, Run(Init(), moves[..j]).db);
    }
  }

  // One move of a run.
  lemma RunStep(moves: seq<Move>, i: nat)
    requires i < |moves|
    ensures Run(Init(), moves[..i + 1]) == Next(Run(Init(), moves[..i]), moves[i])
    ensures Inv(Run(Init(), moves[..i]))
    ensures Evolves(Run(Init(), moves[..i]).db, Run(Init(), moves[..i + 1]).db)
    ensures MovesAlongEdges(Run(Init(), moves[..i]).db, Run(Init(), moves[..i + 1]).db)
  {
    hide Inv, Next, Evolves, MovesAlongEdges;
    assert moves[..i + 1][..i] == moves[..i];
    RunKeeps(moves[..i]);
    NextKeeps(Run(Init(), moves[..i]), moves[i]);
  }
}
