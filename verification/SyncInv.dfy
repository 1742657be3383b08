// What every step keeps true of the tables, and how rows may evolve.
module SyncInv {
  import opened Common
  import opened Status
  import opened SyncDb

  // --- one row -----------------------------------------------------------

  // A record agrees with its manual row, its ruling and its day's work hours.
  ghost predicate LinkOk(r: Record, m: Option<Manual>, a: Option<Ruling>, wh: Option<WorkHour>) {
    && (m.None? <==> r.manualId.None?)
    && (m.Some? ==> r.manualId == Some(m.value.id) && m.value.recordId == r.id)
    && (r.status in {Pending, Accepted, Conflict, Adjudicated} ==> m.None?)
    && (r.status == AwaitingReview ==> m.Some?)
    && (r.status == Verified && m.Some? ==> m.value.decision == Some(Accept))
    && (r.conflictId.Some? <==> r.status in {Conflict, Adjudicated})
    && (r.conflictId.Some? ==> wh.Some? && wh.value.id == r.conflictId.value)
    && (a.Some? <==> r.status == Adjudicated)
    && (a.Some? ==> a.value.recordId == r.id && Some(a.value.workHourId) == r.conflictId)
  }

  function RulingFor(db: Db, recordId: Id): Option<Ruling> {
    if recordId in db.rulings then Some(db.rulings[recordId]) else None
  }

  function HoursFor(db: Db, r: Record): Option<WorkHour> {
    if r.Day() in db.workHours then Some(db.workHours[r.Day()]) else None
  }

  ghost predicate Linked(db: Db, r: Record) {
    LinkOk(r, db.ManualByRecord(r.id), RulingFor(db, r.id), HoursFor(db, r))
  }

  // A review is written once: the version says whether it was.
  ghost predicate ManualOk(m: Manual) {
    || (m.version == 1 && !m.reviewed && m.decision == None)
    || (m.version == 2 && m.reviewed && m.decision.Some?)
  }

  ghost predicate RecordOk(db: Db, id: Id)
    requires id in db.records
  {
    var r := db.records[id];
    && r.id == id
    && r.orderId in db.orders
    && r.batchId in db.batches
    && r.Key() in db.bySeq && db.bySeq[r.Key()] == id
    && 1 <= r.changeVersion < db.nextVersion
    && r.orderId in db.cursors && r.changeVersion <= db.cursors[r.orderId]
    && Linked(db, r)
  }

  // --- the tables --------------------------------------------------------

  ghost predicate HasChange(db: Db, orderId: Option<Id>, v: int) {
    exists id | id in db.records :: db.records[id].changeVersion == v && (orderId.None? || orderId == Some(db.records[id].orderId))
  }

  // next_version is one more than the largest stored change version, versions
  // are distinct, and each cursor is the largest version of its order.
  ghost predicate IndexOk(db: Db) {
    && 1 <= db.nextVersion
    && (1 < db.nextVersion ==> HasChange(db, None, db.nextVersion - 1))
    && (forall a, b | a in db.records && b in db.records ::
          db.records[a].changeVersion == db.records[b].changeVersion ==> a == b)
    && (forall o | o in db.cursors :: db.cursors[o] == 0 || HasChange(db, Some(o), db.cursors[o]))
  }

  ghost predicate KeysOk(db: Db) {
    && (forall k | k in db.bySeq :: db.bySeq[k] in db.records && db.records[db.bySeq[k]].Key() == k)
    && (forall k | k in db.manualOf ::
          k in db.records && db.manualOf[k] in db.manuals && db.manuals[db.manualOf[k]].recordId == k)
    && (forall m | m in db.manuals ::
          && db.manuals[m].id == m && ManualOk(db.manuals[m])
          && db.manuals[m].recordId in db.manualOf && db.manualOf[db.manuals[m].recordId] == m)
    && (forall k | k in db.rulings :: k in db.records)
  }

  ghost predicate Settled(db: Db, batchId: Id) {
    forall id | id in db.records && db.records[id].batchId == batchId :: db.records[id].status != Pending
  }

  ghost predicate BatchOk(db: Db, b: Id)
    requires b in db.batches
  {
    && db.batches[b].id == b
    && (db.batches[b].status == BatchCompleted ==>
          Settled(db, b) && db.batches[b].processedCount == |db.RowsOf(b)|)
  }

  ghost predicate DbInv(db: Db) {
    && (forall id | id in db.records :: RecordOk(db, id))
    && IndexOk(db)
    && KeysOk(db)
    && (forall b | b in db.batches :: BatchOk(db, b))
  }

  // --- how rows evolve ---------------------------------------------------

  // Only hours, status, links and version are ever rewritten.
  predicate SameIdentity(r: Record, r': Record) {
    r'.Facts() == r.Facts()
  }

  // Equal contents or a larger version: a version never names two contents. A
  // link to a manual row, once made, stays.
  predicate RecordEvolves(r: Record, r': Record) {
    && SameIdentity(r, r')
    && (r.manualId.Some? ==> r'.manualId == r.manualId)
    && (r' == r || r.version < r'.version)
    && (r'.status == r.status || Rank(r.status) < Rank(r'.status))
  }

  predicate BatchEvolves(b: Batch, b': Batch) {
    && b'.id == b.id && b'.orderId == b.orderId && b'.recordCount == b.recordCount
    && (b' == b || b.version < b'.version)
  }

  predicate ManualEvolves(m: Manual, m': Manual) {
    && m'.id == m.id && m'.recordId == m.recordId
    && (m' == m || (m.version < m'.version && !m.reviewed))
  }

  predicate HoursEvolve(h: WorkHour, h': WorkHour) {
    h'.id == h.id && (h' == h || h.version < h'.version)
  }

  ghost predicate RecordsEvolve(db: Db, db': Db) {
    && (forall id | id in db.records :: id in db'.records && RecordEvolves(db.records[id], db'.records[id]))
    && (forall id | id in db'.records && id !in db.records ::
          db.nextVersion <= db'.records[id].changeVersion && db'.records[id].batchId !in db.batches)
    && db.nextVersion <= db'.nextVersion
  }

  ghost predicate Evolves(db: Db, db': Db) {
    && RecordsEvolve(db, db')
    && (forall b | b in db.batches :: b in db'.batches && BatchEvolves(db.batches[b], db'.batches[b]))
    && (forall m | m in db.manuals :: m in db'.manuals && ManualEvolves(db.manuals[m], db'.manuals[m]))
    && (forall k | k in db.rulings :: k in db'.rulings && db'.rulings[k] == db.rulings[k])
    && (forall k | k in db.workHours :: k in db'.workHours && HoursEvolve(db.workHours[k], db'.workHours[k]))
    && (forall o | o in db.orders :: o in db'.orders && db'.orders[o].windowHours == db.orders[o].windowHours)
  }

  // Every change of a record's status is an edge of the record table.
  ghost predicate MovesAlongEdges(db: Db, db': Db) {
    forall id | id in db.records ::
      id in db'.records
      && (db'.records[id].status == db.records[id].status
          || RecordEdge(db.records[id].status, db'.records[id].status))
  }

  lemma EvolvesReflexive(db: Db)
    ensures Evolves(db, db) && MovesAlongEdges(db, db)
  {
  }

  lemma RecordsEvolveTransitive(a: Db, b: Db, c: Db)
    requires Evolves(a, b) && RecordsEvolve(b, c)
    ensures RecordsEvolve(a, c)
  {
    forall id | id in a.records
      ensures id in c.records && RecordEvolves(a.records[id], c.records[id])
    {
      assert RecordEvolves(a.records[id], b.records[id]) && RecordEvolves(b.records[id], c.records[id]);
    }
  }

  lemma ManualsEvolveTransitive(a: Db, b: Db, c: Db)
    requires Evolves(a, b) && Evolves(b, c)
    ensures forall m | m in a.manuals :: m in c.manuals && ManualEvolves(a.manuals[m], c.manuals[m])
  {
    forall m | m in a.manuals
      ensures m in c.manuals && ManualEvolves(a.manuals[m], c.manuals[m])
    {
      assert ManualEvolves(a.manuals[m], b.manuals[m]) && ManualEvolves(b.manuals[m], c.manuals[m]);
    }
  }

  lemma EvolvesTransitive(a: Db, b: Db, c: Db)
    requires Evolves(a, b) && Evolves(b, c)
    ensures Evolves(a, c)
  {
    RecordsEvolveTransitive(a, b, c);
    ManualsEvolveTransitive(a, b, c);
  }

  // Rows of a batch are fixed once the batch exists.
  lemma RowsFixed(db: Db, db': Db, b: Id)
    requires RecordsEvolve(db, db') && b in db.batches
    ensures db'.RowsOf(b) == db.RowsOf(b)
    ensures Settled(db, b) ==> Settled(db', b)
  {
    forall id | id in db.records
      ensures id in db'.records && db'.records[id].batchId == db.records[id].batchId
    {
      assert RecordEvolves(db.records[id], db'.records[id]);
    }
  }

  // --- writes to one record ----------------------------------------------

  // The tables with record r rewritten and, in the same transaction, a manual
  // row or a ruling for it inserted.
  function Put(db: Db, r: Record, m: Option<Manual>, a: Option<Ruling>): Db {
    db.(records := db.records[r.id := r],
        manuals := if m.Some? then db.manuals[m.value.id := m.value] else db.manuals,
        manualOf := if m.Some? then db.manualOf[r.id := m.value.id] else db.manualOf,
        rulings := if a.Some? then db.rulings[r.id := a.value] else db.rulings)
  }

  // r is a legal next version of its stored row.
  ghost predicate NextOf(db: Db, r: Record) {
    && r.id in db.records
    && SameIdentity(db.records[r.id], r)
    && (db.records[r.id].manualId.Some? ==> r.manualId == db.records[r.id].manualId)
    && r.version == db.records[r.id].version + 1
    && (r.status == db.records[r.id].status || RecordEdge(db.records[r.id].status, r.status))
  }

  ghost predicate FreshFor(db: Db, r: Record, m: Option<Manual>, a: Option<Ruling>) {
    && (m.Some? ==> m.value.id !in db.manuals && r.id !in db.manualOf && m.value.recordId == r.id && ManualOk(m.value))
    && (a.Some? ==> r.id !in db.rulings)
  }

  lemma NextEvolves(db: Db, r: Record)
    requires NextOf(db, r)
    ensures RecordEvolves(db.records[r.id], r)
  {
    if db.records[r.id].status != r.status {
      RecordEdgeClimbs(db.records[r.id].status, r.status);
    }
  }

  lemma PutEvolves(db: Db, r: Record, m: Option<Manual>, a: Option<Ruling>)
    requires NextOf(db, r) && FreshFor(db, r, m, a)
    ensures Evolves(db, Put(db, r, m, a))
  {
    NextEvolves(db, r);
  }

  lemma PutMovesAlongEdges(db: Db, r: Record, m: Option<Manual>, a: Option<Ruling>)
    requires NextOf(db, r)
    ensures MovesAlongEdges(db, Put(db, r, m, a))
  {
  }

  lemma PutKeepsRecord(db: Db, r: Record, m: Option<Manual>, a: Option<Ruling>, k: Id)
    requires r.id in db.records && RecordOk(db, r.id) && k in db.records && RecordOk(db, k)
    requires KeysOk(db) && NextOf(db, r) && FreshFor(db, r, m, a)
    requires Linked(Put(db, r, m, a), r)
    ensures RecordOk(Put(db, r, m, a), k)
  {
    var db' := Put(db, r, m, a);
    if k != r.id {
      assert db'.records[k] == db.records[k];
      assert db'.ManualByRecord(k) == db.ManualByRecord(k);
      assert RulingFor(db', k) == RulingFor(db, k);
      assert HoursFor(db', db'.records[k]) == HoursFor(db, db.records[k]);
    }
  }

  lemma PutKeepsIndex(db: Db, r: Record, m: Option<Manual>, a: Option<Ruling>)
    requires IndexOk(db) && NextOf(db, r)
    ensures IndexOk(Put(db, r, m, a))
  {
    var db' := Put(db, r, m, a);
    forall o: Option<Id>, v | HasChange(db, o, v)
      ensures HasChange(db', o, v)
    {
      var w :| w in db.records && db.records[w].changeVersion == v && (o.None? || o == Some(db.records[w].orderId));
      assert db'.records[w].changeVersion == v && db'.records[w].orderId == db.records[w].orderId;
    }
  }

  lemma PutKeepsKeys(db: Db, r: Record, m: Option<Manual>, a: Option<Ruling>)
    requires KeysOk(db) && NextOf(db, r) && FreshFor(db, r, m, a)
    ensures KeysOk(Put(db, r, m, a))
  {
  }

  lemma BatchesKept(db: Db, db': Db)
    requires forall b | b in db.batches :: BatchOk(db, b)
    requires RecordsEvolve(db, db') && db'.batches == db.batches
    ensures forall b | b in db'.batches :: BatchOk(db', b)
  {
    forall b | b in db'.batches
      ensures BatchOk(db', b)
    {
      assert BatchOk(db, b);
      RowsFixed(db, db', b);
    }
  }

  lemma PutKeeps(db: Db, r: Record, m: Option<Manual>, a: Option<Ruling>)
    requires DbInv(db) && NextOf(db, r) && FreshFor(db, r, m, a)
    requires Linked(Put(db, r, m, a), r)
    ensures DbInv(Put(db, r, m, a))
    ensures Evolves(db, Put(db, r, m, a)) && MovesAlongEdges(db, Put(db, r, m, a))
  {
    PutEvolves(db, r, m, a);
    PutMovesAlongEdges(db, r, m, a);
    forall k | k in db.records
      ensures RecordOk(Put(db, r, m, a), k)
    {
      PutKeepsRecord(db, r, m, a, k);
    }
    PutKeepsIndex(db, r, m, a);
    PutKeepsKeys(db, r, m, a);
    BatchesKept(db, Put(db, r, m, a));
  }
}
