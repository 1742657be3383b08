// What each transaction on the records does to the tables, given only that its
// snapshots were true at some earlier time.
module SyncTx {
  import opened Common
  import opened Status
  import opened SyncDb
  import opened SyncInv
  import Window

  // The row was read earlier and has evolved since.
  ghost predicate Snap(db: Db, r: Record) {
    r.id in db.records && RecordEvolves(r, db.records[r.id])
  }

  // The rule an automatic verdict follows: the window first, then the hours the
  // customer reported for the device and day.
  datatype Verdict = ToManual | ToConflict(workHourId: Id) | ToAccepted

  function Rule(r: Record, windowHours: int, wh: Option<WorkHour>, now: int): Verdict {
    if Window.Expired(r.occurredAt, windowHours, now) then ToManual
    else if wh.Some? && wh.value.hours != r.hours then ToConflict(wh.value.id)
    else ToAccepted
  }

  // r' is r with the verdict recorded, one version on.
  ghost predicate Recorded(r: Record, v: Verdict, r': Record) {
    match v
    case ToManual =>
      r'.manualId.Some? && r' == r.(status := AwaitingReview, manualId := r'.manualId, version := r.version + 1)
    case ToConflict(w) =>
      r' == r.(status := Conflict, conflictId := Some(w), version := r.version + 1)
    case ToAccepted =>
      r' == r.(status := Accepted, version := r.version + 1)
  }

  // The verdict the rule gives on the tables as they stand.
  function RuleIn(db: Db, r: Record, now: int): Verdict
    requires r.orderId in db.orders
  {
    Rule(r, db.orders[r.orderId].windowHours, HoursFor(db, r), now)
  }

  // Everything but the records, manual rows and rulings is the same.
  ghost predicate OnlyRecords(db: Db, db': Db) {
    db' == db.(records := db'.records, manuals := db'.manuals, manualOf := db'.manualOf, rulings := db'.rulings)
  }

  // A step keeps the invariant and evolves rows along the tables' edges.
  ghost predicate GoodStep(db: Db, db': Db) {
    DbInv(db') && Evolves(db, db') && MovesAlongEdges(db, db')
  }

  lemma StandsStill(db: Db)
    requires DbInv(db)
    ensures GoodStep(db, db)
  {
    EvolvesReflexive(db);
  }

  // --- resolveRecord -------------------------------------------------------

  // A version-guarded write on a snapshot finds the very row that was read.
  lemma SnapIsCurrent(db: Db, r: Record)
    requires Snap(db, r) && db.records[r.id].version == r.version
    ensures db.records[r.id] == r
  {
  }

  // A row can be rewritten when its new links agree.
  lemma RewriteGood(db: Db, r': Record, m: Option<Manual>, a: Option<Ruling>)
    requires DbInv(db) && NextOf(db, r') && FreshFor(db, r', m, a)
    requires Linked(Put(db, r', m, a), r')
    ensures GoodStep(db, Put(db, r', m, a)) && OnlyRecords(db, Put(db, r', m, a))
  {
    hide DbInv, Evolves, MovesAlongEdges, Linked;
    PutKeeps(db, r', m, a);
  }

  function Routed(r: Record, manualId: Id): Record {
    r.(status := AwaitingReview, manualId := Some(manualId), version := r.version + 1)
  }

  function Conflicted(r: Record, workHourId: Id): Record {
    r.(status := Conflict, conflictId := Some(workHourId), version := r.version + 1)
  }

  function Moved(r: Record, dst: RecordStatus): Record {
    r.(status := dst, version := r.version + 1)
  }

  // A pending record has no manual row yet, so routing it creates one.
  lemma RoutingCreates(db: Db, r: Record, freshId: Id)
    requires r.id in db.records && RecordOk(db, r.id) && KeysOk(db)
    requires db.records[r.id] == r && r.status == Pending
    requires RouteToManual(db, r, freshId).Ok?
    ensures var m := Manual(freshId, r.id, r.orderId, false, None, None, 1);
            && NextOf(db, Routed(r, freshId)) && FreshFor(db, Routed(r, freshId), Some(m), None)
            && Linked(Put(db, Routed(r, freshId), Some(m), None), Routed(r, freshId))
            && RouteToManual(db, r, freshId).value == Put(db, Routed(r, freshId), Some(m), None)
  {
    assert Linked(db, r);
    assert db.ManualByRecord(r.id).None?;
    assert r.id !in db.manualOf;
  }

  lemma ConflictLinks(db: Db, r: Record)
    requires r.id in db.records && RecordOk(db, r.id)
    requires db.records[r.id] == r && r.status == Pending && r.Day() in db.workHours
    ensures var r' := Conflicted(r, db.workHours[r.Day()].id);
            NextOf(db, r') && Linked(Put(db, r', None, None), r')
  {
    assert Linked(db, r);
  }

  // Moves that touch no link: to accepted, to revoked, and to verified unless a
  // manual row says otherwise.
  lemma MoveLinks(db: Db, r: Record, dst: RecordStatus)
    requires r.id in db.records && RecordOk(db, r.id)
    requires db.records[r.id] == r && RecordEdge(r.status, dst)
    requires dst in {Accepted, Revoked, Verified}
    requires dst == Verified && db.ManualByRecord(r.id).Some? ==>
               db.ManualByRecord(r.id).value.decision == Some(Accept)
    ensures NextOf(db, Moved(r, dst)) && Linked(Put(db, Moved(r, dst), None, None), Moved(r, dst))
  {
    assert Linked(db, r);
  }

  ghost predicate Resolved(db: Db, r: Record, now: int, db': Db)
    requires r.orderId in db.orders
  {
    exists r' :: Recorded(r, RuleIn(db, r, now), r') && db'.records == db.records[r.id := r']
  }

  // The write resolveRecord makes: the row r' and perhaps a manual row.
  lemma ResolveWrites(db: Db, r: Record, now: int, freshId: Id) returns (r': Record, m: Option<Manual>)
    requires Snap(db, r) && RecordOk(db, r.id) && KeysOk(db)
    requires r.status == Pending && Resolve(db, r, now, freshId).Ok?
    ensures db.records[r.id] == r && r.orderId in db.orders
    ensures NextOf(db, r') && FreshFor(db, r', m, None) && Linked(Put(db, r', m, None), r')
    ensures Recorded(r, RuleIn(db, r, now), r')
    ensures Resolve(db, r, now, freshId).value == Put(db, r', m, None)
  {
    SnapIsCurrent(db, r);
    if Window.Expired(r.occurredAt, db.orders[r.orderId].windowHours, now) {
      RoutingCreates(db, r, freshId);
      r', m := Routed(r, freshId), Some(Manual(freshId, r.id, r.orderId, false, None, None, 1));
    } else if r.Day() in db.workHours && db.workHours[r.Day()].hours != r.hours {
      ConflictLinks(db, r);
      r', m := Conflicted(r, db.workHours[r.Day()].id), None;
    } else {
      MoveLinks(db, r, Accepted);
      r', m := Moved(r, Accepted), None;
    }
  }

  lemma InvGives(db: Db, id: Id)
    requires DbInv(db)
    ensures id in db.records ==> RecordOk(db, id)
    ensures KeysOk(db)
  {
  }

  lemma ResolveGood(db: Db, r: Record, now: int, freshId: Id)
    requires DbInv(db) && Snap(db, r) && Resolve(db, r, now, freshId).Ok?
    ensures GoodStep(db, Resolve(db, r, now, freshId).value)
    ensures OnlyRecords(db, Resolve(db, r, now, freshId).value)
    ensures r.status != Pending ==> Resolve(db, r, now, freshId).value == db
    ensures r.status == Pending ==>
              db.records[r.id] == r && r.orderId in db.orders && Resolved(db, r, now, Resolve(db, r, now, freshId).value)
  {
    hide DbInv, Evolves, MovesAlongEdges, Linked, RecordOk, KeysOk, NextOf, FreshFor, RuleIn;
    if r.status != Pending {
      StandsStill(db);
    } else {
      InvGives(db, r.id);
      var r', m := ResolveWrites(db, r, now, freshId);
      RewriteGood(db, r', m, None);
    }
  }

  // --- the transaction of ProcessBatch -------------------------------------

  ghost predicate DistinctRows(work: seq<Resolution>) {
    forall i, j | 0 <= i < j < |work| :: work[i].row.id != work[j].row.id
  }

  ghost predicate SnapsOf(db: Db, work: seq<Resolution>) {
    forall i | 0 <= i < |work| :: Snap(db, work[i].row)
  }

  // A row listed as pending still was, and carries the verdict the rule gives
  // on the row and the work hours as they stand; any other listed row is as it was.
  ghost predicate Decided(db: Db, w: Resolution, db': Db) {
    var r := w.row;
    && r.id in db.records && r.id in db'.records
    && (r.status != Pending ==> db'.records[r.id] == db.records[r.id])
    && (r.status == Pending ==>
          && db.records[r.id] == r
          && r.orderId in db.orders
          && Recorded(r, RuleIn(db, r, w.now), db'.records[r.id]))
  }

  ghost predicate Untouched(db: Db, work: seq<Resolution>, db': Db) {
    && db'.records.Keys == db.records.Keys
    && forall id | id in db.records && (forall i | 0 <= i < |work| :: work[i].row.id != id) ::
         db'.records[id] == db.records[id]
  }

  ghost predicate Outcome(db: Db, work: seq<Resolution>, db': Db) {
    && OnlyRecords(db, db')
    && Untouched(db, work, db')
    && forall i | 0 <= i < |work| :: Decided(db, work[i], db')
  }

  // One more record: its outcome on the tables so far is its outcome on the
  // tables the transaction began with.
  lemma OneMore(db: Db, work: seq<Resolution>, mid: Db, db': Db)
    requires 0 < |work| && DistinctRows(work)
    requires Outcome(db, work[..|work| - 1], mid)
    requires var w := work[|work| - 1];
             && w.row.id in mid.records && OnlyRecords(mid, db')
             && (w.row.status != Pending ==> db' == mid)
             && (w.row.status == Pending ==>
                   mid.records[w.row.id] == w.row && w.row.orderId in mid.orders && Resolved(mid, w.row, w.now, db'))
    ensures Outcome(db, work, db')
  {
    var n := |work| - 1;
    var w := work[n];
    assert forall i | 0 <= i < n :: work[..n][i] == work[i];
    assert mid.records[w.row.id] == db.records[w.row.id];
    forall i | 0 <= i < |work|
      ensures Decided(db, work[i], db')
    {
      if i < n {
        assert Decided(db, work[..n][i], mid);
      }
    }
  }

  lemma EdgesThrough(db: Db, mid: Db, db': Db, id: Id)
    requires MovesAlongEdges(db, mid) && MovesAlongEdges(mid, db')
    requires id in db.records && id in mid.records && mid.records[id] == db.records[id]
    requires forall k | k in mid.records && k != id :: k in db'.records && db'.records[k] == mid.records[k]
    ensures MovesAlongEdges(db, db')
  {
  }

  lemma GoodThrough(db: Db, mid: Db, db': Db, id: Id)
    requires GoodStep(db, mid) && GoodStep(mid, db')
    requires id in db.records && id in mid.records && mid.records[id] == db.records[id]
    requires forall k | k in mid.records && k != id :: k in db'.records && db'.records[k] == mid.records[k]
    ensures GoodStep(db, db')
  {
    hide DbInv, Evolves, MovesAlongEdges;
    EvolvesTransitive(db, mid, db');
    EdgesThrough(db, mid, db', id);
  }

  lemma {:induction false} ResolveAllGood(db: Db, work: seq<Resolution>)
    requires DbInv(db) && SnapsOf(db, work) && DistinctRows(work)
    requires ResolveAll(db, work).Ok?
    ensures GoodStep(db, ResolveAll(db, work).value)
    ensures Outcome(db, work, ResolveAll(db, work).value)
  {
    hide DbInv, Evolves, MovesAlongEdges, RecordEvolves, RuleIn, Resolve;
    if work == [] {
      StandsStill(db);
    } else {
      var n := |work| - 1;
      var w := work[n];
      assert forall i | 0 <= i < n :: work[..n][i] == work[i];
      ResolveAllGood(db, work[..n]);
      var mid := ResolveAll(db, work[..n]).value;
      var db' := ResolveAll(db, work).value;
      assert Snap(db, w.row) && mid.records[w.row.id] == db.records[w.row.id];
      ResolveGood(mid, w.row, w.now, w.freshId);
      OneMore(db, work, mid, db');
      GoodThrough(db, mid, db', w.row.id);
    }
  }

  // --- rulings, corrections and single moves -------------------------------

  lemma MoveGood(db: Db, r: Record, dst: RecordStatus)
    requires DbInv(db) && Snap(db, r) && RecordEdge(r.status, dst) && dst in {Accepted, Revoked, Verified}
    requires dst == Verified && db.ManualByRecord(r.id).Some? ==>
               db.ManualByRecord(r.id).value.decision == Some(Accept)
    requires db.UpdateRecordStatus(r.id, r.status, dst, r.version).Ok?
    ensures db.records[r.id] == r
    ensures GoodStep(db, db.UpdateRecordStatus(r.id, r.status, dst, r.version).value)
  {
    hide DbInv, Evolves, MovesAlongEdges, Linked, RecordOk, KeysOk;
    SnapIsCurrent(db, r);
    InvGives(db, r.id);
    MoveLinks(db, r, dst);
    RewriteGood(db, Moved(r, dst), None, None);
  }

  lemma RulingLinks(db: Db, r: Record, a: Ruling)
    requires r.id in db.records && RecordOk(db, r.id)
    requires db.records[r.id] == r && r.status == Conflict
    requires a.recordId == r.id && r.conflictId == Some(a.workHourId)
    ensures NextOf(db, Moved(r, Adjudicated))
    ensures Linked(Put(db, Moved(r, Adjudicated), None, Some(a)), Moved(r, Adjudicated))
  {
    assert Linked(db, r);
  }

  lemma AdjudicateGood(db: Db, r: Record, wh: WorkHour, winner: Winner, adjudicator: Id, freshId: Id)
    requires DbInv(db) && Snap(db, r) && r.status == Conflict && r.conflictId == Some(wh.id)
    requires Adjudicate(db, r, wh, winner, adjudicator, freshId).Ok?
    ensures db.records[r.id] == r
    ensures GoodStep(db, Adjudicate(db, r, wh, winner, adjudicator, freshId).value)
    ensures var db' := Adjudicate(db, r, wh, winner, adjudicator, freshId).value;
            && r.id in db'.rulings
            && db' == db.(records := db.records[r.id := Moved(r, Adjudicated)],
                          rulings := db.rulings[r.id := db'.rulings[r.id]])
  {
    hide DbInv, Evolves, MovesAlongEdges, Linked, RecordOk, KeysOk;
    SnapIsCurrent(db, r);
    InvGives(db, r.id);
    var db' := Adjudicate(db, r, wh, winner, adjudicator, freshId).value;
    RulingLinks(db, r, db'.rulings[r.id]);
    RewriteGood(db, Moved(r, Adjudicated), None, Some(db'.rulings[r.id]));
  }

  function Rehoured(r: Record, hours: real): Record {
    r.(hours := hours, version := r.version + 1)
  }

  lemma RehourLinks(db: Db, r: Record, hours: real)
    requires r.id in db.records && RecordOk(db, r.id) && db.records[r.id] == r
    ensures NextOf(db, Rehoured(r, hours)) && Linked(Put(db, Rehoured(r, hours), None, None), Rehoured(r, hours))
  {
    assert Linked(db, r);
  }

  lemma CorrectHoursGood(db: Db, r: Record, hours: real)
    requires DbInv(db) && Snap(db, r) && db.CorrectHours(r.id, hours, r.version).Ok?
    ensures db.records[r.id] == r
    ensures db.CorrectHours(r.id, hours, r.version).value == Put(db, Rehoured(r, hours), None, None)
    ensures GoodStep(db, db.CorrectHours(r.id, hours, r.version).value)
  {
    hide DbInv, Evolves, MovesAlongEdges, Linked, RecordOk, KeysOk;
    SnapIsCurrent(db, r);
    InvGives(db, r.id);
    RehourLinks(db, r, hours);
    RewriteGood(db, Rehoured(r, hours), None, None);
  }

  lemma OneRowMoves(db: Db, id: Id, db': Db)
    requires id in db.records && id in db'.records && db'.records == db.records[id := db'.records[id]]
    requires RecordEdge(db.records[id].status, db'.records[id].status)
    ensures MovesAlongEdges(db, db')
  {
  }

  lemma SnapOfStored(db: Db, id: Id)
    requires id in db.records && RecordOk(db, id)
    ensures Snap(db, db.records[id])
  {
  }

  lemma AcceptedHasNoManual(db: Db, id: Id)
    requires id in db.records && RecordOk(db, id) && db.records[id].status == Accepted
    ensures db.ManualByRecord(id).None?
  {
    assert Linked(db, db.records[id]);
  }

  lemma CorrectGood(db: Db, r: Record, hours: real)
    requires DbInv(db) && Snap(db, r) && Correct(db, r, hours).Ok?
    ensures db.records[r.id] == r
    ensures GoodStep(db, Correct(db, r, hours).value)
    ensures Correct(db, r, hours).value.records == db.records[r.id :=
              if r.status == Accepted then Moved(Rehoured(r, hours), Verified) else Rehoured(r, hours)]
  {
    hide DbInv, Evolves, MovesAlongEdges, Linked, RecordOk, KeysOk;
    CorrectHoursGood(db, r, hours);
    var mid := db.CorrectHours(r.id, hours, r.version).value;
    if r.status == Accepted {
      InvGives(mid, r.id);
      SnapOfStored(mid, r.id);
      AcceptedHasNoManual(mid, r.id);
      MoveGood(mid, mid.records[r.id], Verified);
      var db' := Correct(db, r, hours).value;
      EvolvesTransitive(db, mid, db');
      OneRowMoves(db, r.id, db');
    }
  }

  // --- the review of a manual row ------------------------------------------

  ghost predicate ManualSnap(db: Db, m: Manual) {
    m.id in db.manuals && ManualEvolves(m, db.manuals[m.id])
  }

  function Reviewed(m: Manual, reviewer: Id, decision: Decision): Manual {
    m.(reviewed := true, reviewer := Some(reviewer), decision := Some(decision), version := m.version + 1)
  }

  lemma ReviewKeepsRecord(db: Db, m: Manual, reviewer: Id, decision: Decision, k: Id)
    requires k in db.records && RecordOk(db, k)
    requires KeysOk(db) && m.id in db.manuals && db.manuals[m.id] == m && !m.reviewed
    requires m.recordId in db.records ==> db.records[m.recordId].status != Verified
    ensures RecordOk(db.(manuals := db.manuals[m.id := Reviewed(m, reviewer, decision)]), k)
  {
    assert Linked(db, db.records[k]);
  }

  // An unreviewed row's record is never verified.
  lemma UnreviewedIsNotVerified(db: Db, m: Manual)
    requires KeysOk(db) && m.id in db.manuals && db.manuals[m.id] == m && !m.reviewed
    requires m.recordId in db.records && RecordOk(db, m.recordId)
    ensures db.records[m.recordId].status != Verified
  {
    assert ManualOk(m);
    assert Linked(db, db.records[m.recordId]);
  }

  // The records, their index, the counter and the batches are as they were.
  ghost predicate SameRecords(db: Db, db': Db) {
    && db'.records == db.records && db'.bySeq == db.bySeq && db'.batches == db.batches
    && db'.nextVersion == db.nextVersion && db'.cursors == db.cursors
  }

  lemma SameRecordsGood(db: Db, db': Db)
    requires DbInv(db) && SameRecords(db, db') && KeysOk(db') && Evolves(db, db')
    requires forall k | k in db.records :: RecordOk(db', k)
    ensures GoodStep(db, db')
  {
    hide KeysOk, RecordOk, Evolves;
    SameIndex(db, db');
    BatchesKept(db, db') by { RecordsEvolveFrom(db, db'); }
  }

  lemma RecordsEvolveFrom(db: Db, db': Db)
    requires Evolves(db, db')
    ensures RecordsEvolve(db, db')
  {
  }

  lemma SameIndex(db: Db, db': Db)
    requires IndexOk(db) && SameRecords(db, db')
    ensures IndexOk(db')
  {
    forall o: Option<Id>, v | HasChange(db, o, v)
      ensures HasChange(db', o, v)
    {
    }
  }

  lemma ReviewEvolves(db: Db, m: Manual, m': Manual)
    requires m.id in db.manuals && db.manuals[m.id] == m && ManualEvolves(m, m')
    ensures Evolves(db, db.(manuals := db.manuals[m.id := m']))
  {
  }

  lemma ReviewKeepsKeys(db: Db, m: Manual, m': Manual)
    requires m.id in db.manuals && db.manuals[m.id] == m && ManualEvolves(m, m')
    requires KeysOk(db) && ManualOk(m')
    ensures KeysOk(db.(manuals := db.manuals[m.id := m']))
  {
  }

  lemma ReviewKeepsRecords(db: Db, m: Manual, reviewer: Id, decision: Decision)
    requires DbInv(db) && m.id in db.manuals && db.manuals[m.id] == m && !m.reviewed
    ensures forall k | k in db.records :: RecordOk(db.(manuals := db.manuals[m.id := Reviewed(m, reviewer, decision)]), k)
  {
    hide KeysOk, RecordOk, IndexOk;
    ManualHasRecord(db, m);
    UnreviewedIsNotVerified(db, m);
    forall k | k in db.records
      ensures RecordOk(db.(manuals := db.manuals[m.id := Reviewed(m, reviewer, decision)]), k)
    {
      ReviewKeepsRecord(db, m, reviewer, decision, k);
    }
  }

  lemma ManualHasRecord(db: Db, m: Manual)
    requires KeysOk(db) && m.id in db.manuals && db.manuals[m.id] == m
    ensures m.recordId in db.records && ManualOk(m)
  {
  }

  lemma ReviewGood(db: Db, m: Manual, reviewer: Id, decision: Decision)
    requires DbInv(db) && ManualSnap(db, m) && !m.reviewed
    requires db.ReviewManual(m.id, reviewer, decision, m.version).Ok?
    ensures db.manuals[m.id] == m
    ensures GoodStep(db, db.ReviewManual(m.id, reviewer, decision, m.version).value)
    ensures db.ReviewManual(m.id, reviewer, decision, m.version).value
            == db.(manuals := db.manuals[m.id := Reviewed(m, reviewer, decision)])
  {
    hide DbInv, KeysOk, RecordOk, Evolves, MovesAlongEdges, IndexOk;
    InvGives(db, m.recordId);
    ManualHasRecord(db, m);
    ReviewEvolves(db, m, Reviewed(m, reviewer, decision));
    ReviewKeepsKeys(db, m, Reviewed(m, reviewer, decision));
    ReviewKeepsRecords(db, m, reviewer, decision);
    SameRecordsGood(db, db.ReviewManual(m.id, reviewer, decision, m.version).value);
  }
}
