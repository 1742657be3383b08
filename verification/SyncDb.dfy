// The tables behind offline sync and one function per SQL statement on them.
// A statement maps the tables to the tables it leaves, or to the error the
// caller sees; an error leaves the tables as they were. UNIQUE(order_id,
// client_sequence) and UNIQUE(record_id) are the index maps bySeq and manualOf.
module SyncDb {
  import opened Common
  import opened Status
  import Window
  import TimeText

  datatype Decision = Accept | Reject

  datatype Winner = Field | Customer

  datatype Order = Order(windowHours: int, aborted: bool)

  datatype Record = Record(
    id: Id, orderId: Id, deviceId: Id, responsibleId: Id, occurredAt: int, receivedAt: int,
    seqNo: int, hours: real, content: string, status: RecordStatus, changeVersion: int,
    conflictId: Option<Id>, manualId: Option<Id>, batchId: Id, version: int)
  {
    function Key(): (Id, int) { (orderId, seqNo) }

    // The columns no statement rewrites.
    function Facts(): (Id, Id, Id, Id, int, int, int, string, int, Id) {
      (id, orderId, deviceId, responsibleId, occurredAt, receivedAt, seqNo, content, changeVersion, batchId)
    }

    // The (device, UTC date) the customer reports hours under.
    function Day(): (Id, int) { (deviceId, TimeText.DayOf(occurredAt)) }
  }

  datatype Batch = Batch(
    id: Id, orderId: Id, leaseOwner: Option<Id>, leaseUntil: Option<int>, status: BatchStatus,
    recordCount: int, processedCount: int, retryCount: int, nextRetryAt: Option<int>, version: int)

  datatype Manual = Manual(
    id: Id, recordId: Id, orderId: Id, reviewed: bool, reviewer: Option<Id>,
    decision: Option<Decision>, version: int)

  datatype WorkHour = WorkHour(id: Id, hours: real, version: int)

  datatype Ruling = Ruling(
    id: Id, recordId: Id, workHourId: Id, winner: Winner, deltaHours: real, attributedTo: Winner,
    adjudicatorId: Id)

  // One offline record submitted for replay; None is the empty string.
  datatype Input = Input(
    deviceId: Option<Id>, responsibleId: Option<Id>, occurredAt: int, seqNo: int, hours: real,
    content: string)

  datatype Db = Db(
    orders: map<Id, Order>,
    devices: set<Id>,
    persons: set<Id>,
    records: map<Id, Record>,
    bySeq: map<(Id, int), Id>,
    batches: map<Id, Batch>,
    manuals: map<Id, Manual>,
    manualOf: map<Id, Id>,
    workHours: map<(Id, int), WorkHour>,
    rulings: map<Id, Ruling>,
    nextVersion: int,
    cursors: map<Id, int>)
  {
    // operation_records: versioned updates

    function UpdateRecordStatus(id: Id, src: RecordStatus, dst: RecordStatus, version: int): Result<Db> {
      if id in records && records[id].version == version && records[id].status == src then
        Ok(this.(records := records[id := records[id].(status := dst, version := version + 1)]))
      else
        Err(VersionConflict)
    }

    // Guarded by the version alone: the statement has no status guard.
    function SetConflict(id: Id, workHourId: Id, version: int): Result<Db> {
      if id in records && records[id].version == version then
        Ok(this.(records := records[id := records[id].(
          status := Conflict, conflictId := Some(workHourId), version := version + 1)]))
      else
        Err(VersionConflict)
    }

    // Guarded by the version alone: the statement has no status guard.
    function SetManual(id: Id, manualId: Id, version: int): Result<Db> {
      if id in records && records[id].version == version then
        Ok(this.(records := records[id := records[id].(
          status := AwaitingReview, manualId := Some(manualId), version := version + 1)]))
      else
        Err(VersionConflict)
    }

    function CorrectHours(id: Id, hours: real, version: int): Result<Db> {
      if id in records && records[id].version == version then
        Ok(this.(records := records[id := records[id].(hours := hours, version := version + 1)]))
      else
        Err(VersionConflict)
    }

    // operation_records: replay

    // Reads the counter and bumps it.
    function NextChangeVersion(): (int, Db) {
      (nextVersion, this.(nextVersion := nextVersion + 1))
    }

    // The caller has found (order_id, client_sequence) free in the same
    // transaction, so a UNIQUE violation can only come from the primary key;
    // the fallback lookup then finds nothing.
    function InsertRecord(r: Record): Result<Db> {
      if r.id in records then
        Err(AlreadyExists)
      else if r.orderId !in orders || r.deviceId !in devices || r.responsibleId !in persons then
        Err(Driver)
      else
        Ok(this.(records := records[r.id := r], bySeq := bySeq[r.Key() := r.id]))
    }

    // sync_batches

    function CreateSyncBatch(b: Batch): Result<Db> {
      if b.id in batches then Err(AlreadyExists)
      else if b.orderId !in orders then Err(Driver)
      else Ok(this.(batches := batches[b.id := b.(version := 1)]))
    }

    // Only a pending batch can be claimed.
    function ClaimLease(id: Id, owner: Id, leaseUntil: int): Result<Db> {
      if id in batches && batches[id].status == BatchPending then
        Ok(this.(batches := batches[id := batches[id].(
          leaseOwner := Some(owner), leaseUntil := Some(leaseUntil), status := BatchLeasing,
          version := batches[id].version + 1)]))
      else
        Err(LeaseHeld)
    }

    // Neither the owner nor the version is checked.
    function ReleaseLease(id: Id): Result<Db> {
      if id in batches && batches[id].status == BatchLeasing then
        Ok(this.(batches := batches[id := Unleased(batches[id])]))
      else
        Err(LeaseHeld)
    }

    static function Unleased(b: Batch): Batch {
      b.(leaseOwner := None, leaseUntil := None, status := BatchPending, version := b.version + 1)
    }

    // The deadline test is a comparison of texts in SQL.
    static predicate LeaseExpired(b: Batch, now: int) {
      b.status == BatchLeasing && b.leaseUntil.Some? && TimeText.TextBefore(b.leaseUntil.value, now)
    }

    function ReclaimExpired(now: int): Db {
      this.(batches := map id | id in batches ::
        if LeaseExpired(batches[id], now) then Unleased(batches[id]) else batches[id])
    }

    function UpdateBatchProgress(id: Id, processed: int, status: BatchStatus, version: int): Result<Db> {
      if id in batches && batches[id].version == version then
        Ok(this.(batches := batches[id := batches[id].(
          processedCount := processed, status := status, version := version + 1)]))
      else
        Err(VersionConflict)
    }

    // Zero matching rows is not an error.
    function BumpBatchRetry(id: Id, nextRetry: int): Db {
      if id in batches && batches[id].status in {BatchProcessing, BatchFailed, BatchLeasing} then
        this.(batches := batches[id := batches[id].(
          status := BatchFailed, retryCount := batches[id].retryCount + 1,
          nextRetryAt := Some(nextRetry), version := batches[id].version + 1)])
      else
        this
    }

    // No status guard: even a completed batch can be dead-lettered.
    function MarkBatchPermanent(id: Id): Result<Db> {
      if id in batches then
        Ok(this.(batches := batches[id := batches[id].(
          status := BatchPermanent, nextRetryAt := None, version := batches[id].version + 1)]))
      else
        Err(VersionConflict)
    }

    // manual_verifications

    function ManualByRecord(recordId: Id): Option<Manual> {
      if recordId in manualOf && manualOf[recordId] in manuals then Some(manuals[manualOf[recordId]]) else None
    }

    function CreateManual(id: Id, recordId: Id, orderId: Id): Result<Db> {
      if id in manuals || recordId in manualOf then Err(AlreadyExists)
      else if recordId !in records || orderId !in orders then Err(Driver)
      else Ok(this.(
        manuals := manuals[id := Manual(id, recordId, orderId, false, None, None, 1)],
        manualOf := manualOf[recordId := id]))
    }

    function ReviewManual(id: Id, reviewer: Id, decision: Decision, version: int): Result<Db> {
      if id in manuals && manuals[id].version == version then
        Ok(this.(manuals := manuals[id := manuals[id].(
          reviewed := true, reviewer := Some(reviewer), decision := Some(decision), version := version + 1)]))
      else
        Err(VersionConflict)
    }

    // customer_work_hours and adjudications

    predicate HoursIdTaken(id: Id) {
      exists k | k in workHours.Keys :: workHours[k].id == id
    }

    predicate RulingIdTaken(id: Id) {
      exists k | k in rulings.Keys :: rulings[k].id == id
    }

    // On conflict the stored row keeps its id.
    function UpsertWorkHour(id: Id, deviceId: Id, day: int, hours: real): Result<Db> {
      var key := (deviceId, day);
      if deviceId !in devices then Err(Driver)
      else if key in workHours then
        Ok(this.(workHours := workHours[key := workHours[key].(
          hours := hours, version := workHours[key].version + 1)]))
      else if HoursIdTaken(id) then Err(AlreadyExists)
      else Ok(this.(workHours := workHours[key := WorkHour(id, hours, 1)]))
    }

    function CreateRuling(a: Ruling): Result<Db> {
      if a.recordId in rulings || RulingIdTaken(a.id) then Err(AlreadyExists)
      else if a.recordId !in records || a.adjudicatorId !in persons || !HoursIdTaken(a.workHourId) then Err(Driver)
      else Ok(this.(rulings := rulings[a.recordId := a]))
    }

    // sync_state

    function UpsertBackfill(orderId: Id, changeVersion: int): Result<Db> {
      if orderId !in orders then Err(Driver)
      else if orderId in cursors then
        Ok(this.(cursors := cursors[orderId := Max(changeVersion, cursors[orderId])]))
      else
        Ok(this.(cursors := cursors[orderId := changeVersion]))
    }

    // Rows carrying a batch id.
    function RowsOf(batchId: Id): set<Id> {
      set id | id in records && records[id].batchId == batchId
    }
  }

  // Transactions of the sync service, as chains of statements. The caller keeps
  // the old tables on Err (InTx rolls back).

  // resolveRecord on the snapshot r, with the clock reading it takes and the
  // uuid it would use for a manual row.
  function Resolve(db: Db, r: Record, now: int, freshId: Id): Result<Db> {
    if r.status != Pending then
      Ok(db)
    else if r.orderId !in db.orders then
      Err(NotFound)
    else if Window.Expired(r.occurredAt, db.orders[r.orderId].windowHours, now) then
      RouteToManual(db, r, freshId)
    else if r.Day() in db.workHours && db.workHours[r.Day()].hours != r.hours then
      db.SetConflict(r.id, db.workHours[r.Day()].id, r.version)
    else
      db.UpdateRecordStatus(r.id, Pending, Accepted, r.version)
  }

  function RouteToManual(db: Db, r: Record, freshId: Id): Result<Db> {
    match db.ManualByRecord(r.id)
    case Some(m) => db.SetManual(r.id, m.id, r.version)
    case None =>
      var created :- db.CreateManual(freshId, r.id, r.orderId);
      created.SetManual(r.id, freshId, r.version)
  }

  // What one record of a batch is resolved with: its snapshot, the clock reading
  // and the uuid.
  datatype Resolution = Resolution(row: Record, now: int, freshId: Id)

  // The transaction of ProcessBatch.
  function ResolveAll(db: Db, work: seq<Resolution>): Result<Db> {
    if work == [] then Ok(db)
    else
      var last := work[|work| - 1];
      var mid :- ResolveAll(db, work[..|work| - 1]);
      Resolve(mid, last.row, last.now, last.freshId)
  }

  // The transaction of Adjudicate on the snapshots r and wh.
  function Adjudicate(db: Db, r: Record, wh: WorkHour, winner: Winner, adjudicator: Id, freshId: Id): Result<Db> {
    var delta := if r.hours < wh.hours then wh.hours - r.hours else r.hours - wh.hours;
    var loser := if winner == Customer then Field else Customer;
    var ruled :- db.CreateRuling(Ruling(freshId, r.id, wh.id, winner, delta, loser, adjudicator));
    ruled.UpdateRecordStatus(r.id, Conflict, Adjudicated, r.version)
  }

  // The transaction of CorrectRecord on the snapshot r.
  function Correct(db: Db, r: Record, hours: real): Result<Db> {
    var corrected :- db.CorrectHours(r.id, hours, r.version);
    if r.status != Accepted then Ok(corrected)
    else if r.id !in corrected.records then Err(NotFound)
    else corrected.UpdateRecordStatus(r.id, Accepted, Verified, corrected.records[r.id].version)
  }

  // An accepted input, ready to be stored.
  function NewRecord(id: Id, orderId: Id, batchId: Id, input: Input, now: int): Record
    requires input.deviceId.Some? && input.responsibleId.Some?
  {
    Record(id, orderId, input.deviceId.value, input.responsibleId.value, input.occurredAt, now, input.seqNo,
           input.hours, input.content, Pending, 0, None, None, batchId, 1)
  }

  predicate ValidInput(input: Input) {
    && input.deviceId.Some? && input.responsibleId.Some? && input.seqNo > 0
    && input.occurredAt != TimeText.ZERO_TIME
  }

  // One replayed row: already stored, or stored with the next change version.
  function InsertOne(db: Db, r: Record): Result<Db> {
    if r.Key() in db.bySeq then Ok(db)
    else
      var (v, bumped) := db.NextChangeVersion();
      bumped.InsertRecord(r.(changeVersion := v))
  }

  // InsertBatch, on the rows built from the sorted inputs.
  function InsertAll(db: Db, rows: seq<Record>): Result<Db> {
    if rows == [] then Ok(db)
    else
      var mid :- InsertAll(db, rows[..|rows| - 1]);
      InsertOne(mid, rows[|rows| - 1])
  }

  // The stored row a replayed row is answered with.
  function Stored(db: Db, r: Record): Record {
    if r.Key() in db.bySeq && db.bySeq[r.Key()] in db.records then db.records[db.bySeq[r.Key()]] else r
  }

  function MaxChange(db: Db, rows: seq<Record>): int {
    if rows == [] then 0
    else Max(MaxChange(db, rows[..|rows| - 1]), Stored(db, rows[|rows| - 1]).changeVersion)
  }

  predicate AllKnown(db: Db, rows: seq<Record>) {
    forall r | r in rows :: r.Key() in db.bySeq
  }

  // The transaction of Backfill, on rows built from the sorted inputs.
  function Backfill(db: Db, orderId: Id, batchId: Id, rows: seq<Record>): Result<Db> {
    if AllKnown(db, rows) then Ok(db)
    else
      var withBatch :- db.CreateSyncBatch(
        Batch(batchId, orderId, None, None, BatchPending, |rows|, 0, 0, None, 1));
      var filled :- InsertAll(withBatch, rows);
      filled.UpsertBackfill(orderId, MaxChange(filled, rows))
  }
}
