// What each call other than batch resolution has written when its transaction
// commits, in any interleaved run: the row it read is still the row it rewrites,
// and a call that fails has written nothing.
module SyncCommits {
  import opened Common
  import opened Status
  import opened SyncDb
  import opened SyncInv
  import opened SyncTx
  import opened SyncMachine
  import opened SyncSafety

  // Move i is a step of worker w.
  ghost predicate StepsAt(moves: seq<Move>, i: nat, w: nat) {
    i < |moves| && moves[i].StepOf? && moves[i].worker == w && w in At(moves, i).workers
  }

  lemma StepFacts(moves: seq<Move>, i: nat, w: nat)
    requires StepsAt(moves, i, w)
    ensures var s, s' := At(moves, i), At(moves, i + 1);
            && DbInv(s.db) && WorkerOk(s.db, s.workers[w]) && w in s'.workers
            && (s'.db, s'.workers[w]) == StepWorker(s.db, s.now, s.workers[w], moves[i].oracle)
  {
    hide Run, Inv, DbInv, WorkerOk, StepWorker;
    RunStep(moves, i);
    CallIsOk(At(moves, i), w);
  }

  // One record rewritten, nothing else in its table.
  ghost predicate Rewrites(db: Db, db': Db, r: Record, r': Record) {
    r.id in db.records && db.records[r.id] == r && db'.records == db.records[r.id := r']
  }

  lemma SnapStored(db: Db, r: Record)
    requires Snap(db, r)
    ensures r.id in db.records
  {
  }

  // --- adjudication --------------------------------------------------------------

  predicate Distance(a: real, b: real, d: real) {
    d >= 0.0 && (d == a - b || d == b - a)
  }

  lemma RulingWrites(db: Db, r: Record, wh: WorkHour, winner: Winner, adjudicator: Id, freshId: Id)
    requires Snap(db, r) && Adjudicate(db, r, wh, winner, adjudicator, freshId).Ok?
    ensures var db' := Adjudicate(db, r, wh, winner, adjudicator, freshId).value;
            && r.status == Conflict && r.id !in db.rulings && r.id in db'.rulings
            && Rewrites(db, db', r, r.(status := Adjudicated, version := r.version + 1))
            && var a := db'.rulings[r.id];
               && db' == db.(records := db'.records, rulings := db.rulings[r.id := a])
               && a.workHourId == wh.id && a.winner == winner && a.attributedTo != winner
               && a.adjudicatorId == adjudicator && Distance(r.hours, wh.hours, a.deltaHours)
  {
    hide RecordEvolves, Db.RulingIdTaken, Db.HoursIdTaken;
    SnapIsCurrent(db, r);
  }

  // The guards that are left to fail: the record's version, the adjudicator and
  // the fresh id. The work-hour row and the missing ruling are the invariant's.
  lemma RulesExactly(db: Db, r: Record, wh: WorkHour, winner: Winner, adjudicator: Id, freshId: Id)
    requires DbInv(db) && Snap(db, r) && r.status == Conflict && r.conflictId == Some(wh.id)
    ensures Adjudicate(db, r, wh, winner, adjudicator, freshId).Ok?
            <==> db.records[r.id] == r && adjudicator in db.persons && !db.RulingIdTaken(freshId)
  {
    hide DbInv, RecordEvolves;
    if db.records[r.id].version == r.version {
      SnapIsCurrent(db, r);
      ConflictHasHours(db, r);
    }
  }

  lemma ConflictHasHours(db: Db, r: Record)
    requires DbInv(db) && r.id in db.records && db.records[r.id] == r && r.status == Conflict
    ensures r.id !in db.rulings && r.Day() in db.workHours && r.conflictId == Some(db.workHours[r.Day()].id)
    ensures r.conflictId.Some? && db.HoursIdTaken(r.conflictId.value)
  {
    hide DbInv;
    StoredIsLinked(db, r.id);
  }

  // A ruling commits exactly when the record it read is unchanged since, the
  // adjudicator is known and its fresh id is free. It names the winner, blames
  // the other side, and measures the gap between the record's hours and the work
  // hours it read.
  lemma RulingAtCommit(moves: seq<Move>, i: nat, w: nat)
    requires StepsAt(moves, i, w) && At(moves, i).workers[w].AdRule?
    ensures var s, s', call := At(moves, i), At(moves, i + 1), At(moves, i).workers[w];
            && call.record.id in s.db.records && w in s'.workers
            && (s'.workers[w] == Done(None) <==>
                  && s.db.records[call.record.id] == call.record
                  && call.adjudicator in s.db.persons && !s.db.RulingIdTaken(call.freshId))
    ensures var s, s', call := At(moves, i), At(moves, i + 1), At(moves, i).workers[w];
            if w in s'.workers && s'.workers[w] == Done(None) then
              && Rewrites(s.db, s'.db, call.record, call.record.(status := Adjudicated, version := call.record.version + 1))
              && call.record.status == Conflict
              && call.record.id !in s.db.rulings && call.record.id in s'.db.rulings
              && var a := s'.db.rulings[call.record.id];
                 && s'.db == s.db.(records := s'.db.records, rulings := s.db.rulings[call.record.id := a])
                 && a.workHourId == call.hours.id && a.winner == call.winner && a.attributedTo != call.winner
                 && a.adjudicatorId == call.adjudicator && Distance(call.record.hours, call.hours.hours, a.deltaHours)
            else s'.db == s.db
  {
    hide Run, DbInv, Snap, Adjudicate, Rewrites, Db.RulingIdTaken;
    StepFacts(moves, i, w);
    var s, call := At(moves, i), At(moves, i).workers[w];
    SnapStored(s.db, call.record);
    RulesExactly(s.db, call.record, call.hours, call.winner, call.adjudicator, call.freshId);
    if Adjudicate(s.db, call.record, call.hours, call.winner, call.adjudicator, call.freshId).Ok? {
      RulingWrites(s.db, call.record, call.hours, call.winner, call.adjudicator, call.freshId);
    }
  }

  // --- correction ----------------------------------------------------------------

  function Corrected(r: Record, hours: real): Record {
    if r.status == Accepted then r.(hours := hours, status := Verified, version := r.version + 2)
    else r.(hours := hours, version := r.version + 1)
  }

  lemma CorrectionWrites(db: Db, r: Record, hours: real)
    requires Snap(db, r) && Correct(db, r, hours).Ok?
    ensures var db' := Correct(db, r, hours).value;
            Rewrites(db, db', r, Corrected(r, hours)) && db' == db.(records := db'.records)
  {
    hide RecordEvolves;
    SnapIsCurrent(db, r);
    var rehoured := r.(hours := hours, version := r.version + 1);
    assert db.CorrectHours(r.id, hours, r.version) == Ok(db.(records := db.records[r.id := rehoured]));
    if r.status == Accepted {
      RewrittenTwice(db.records, r.id, rehoured, Corrected(r, hours));
    }
  }

  lemma RewrittenTwice(records: map<Id, Record>, id: Id, a: Record, b: Record)
    ensures records[id := a][id := b] == records[id := b]
  {
  }

  lemma CorrectsExactly(db: Db, r: Record, hours: real)
    requires Snap(db, r)
    ensures Correct(db, r, hours).Ok? <==> db.records[r.id] == r
  {
    hide RecordEvolves;
    if db.records[r.id].version == r.version {
      SnapIsCurrent(db, r);
    }
  }

  // A correction commits exactly when the row is as read: new hours, an accepted
  // record verified, any other status kept.
  lemma CorrectionAtCommit(moves: seq<Move>, i: nat, w: nat)
    requires StepsAt(moves, i, w) && At(moves, i).workers[w].CoApply?
    ensures var s, s', call := At(moves, i), At(moves, i + 1), At(moves, i).workers[w];
            && call.record.id in s.db.records && w in s'.workers
            && (s'.workers[w] == Done(None) <==> s.db.records[call.record.id] == call.record)
    ensures var s, s', call := At(moves, i), At(moves, i + 1), At(moves, i).workers[w];
            if w in s'.workers && s'.workers[w] == Done(None) then
              && Rewrites(s.db, s'.db, call.record, Corrected(call.record, call.newHours))
              && s'.db == s.db.(records := s'.db.records)
            else s'.db == s.db
  {
    hide Run, DbInv, Snap, Correct, Rewrites, Corrected;
    StepFacts(moves, i, w);
    var s, call := At(moves, i), At(moves, i).workers[w];
    SnapStored(s.db, call.record);
    CorrectsExactly(s.db, call.record, call.newHours);
    if Correct(s.db, call.record, call.newHours).Ok? {
      CorrectionWrites(s.db, call.record, call.newHours);
    }
  }

  // --- review and revocation -----------------------------------------------------

  lemma MoveWrites(db: Db, r: Record, src: RecordStatus, dst: RecordStatus)
    requires Snap(db, r) && db.UpdateRecordStatus(r.id, src, dst, r.version).Ok?
    ensures var db' := db.UpdateRecordStatus(r.id, src, dst, r.version).value;
            && r.status == src && Rewrites(db, db', r, r.(status := dst, version := r.version + 1))
            && db' == db.(records := db'.records)
  {
    hide RecordEvolves;
    SnapIsCurrent(db, r);
  }

  lemma MovesExactly(db: Db, r: Record, dst: RecordStatus)
    requires Snap(db, r)
    ensures db.UpdateRecordStatus(r.id, r.status, dst, r.version).Ok? <==> db.records[r.id] == r
  {
    hide RecordEvolves;
    if db.records[r.id].version == r.version {
      SnapIsCurrent(db, r);
    }
  }

  // The record follows the decision written before it exactly when nobody wrote
  // the record since it was read. Otherwise nothing is written, and a reviewed
  // manual row is left with a record that did not follow.
  lemma ReviewAtCommit(moves: seq<Move>, i: nat, w: nat)
    requires StepsAt(moves, i, w) && At(moves, i).workers[w].MvRecord?
    ensures var s, s', call := At(moves, i), At(moves, i + 1), At(moves, i).workers[w];
            && call.manualId in s.db.manuals && s.db.manuals[call.manualId].decision == Some(call.decision)
            && call.record.id in s.db.records && w in s'.workers
            && (s'.workers[w] == Done(None) <==> s.db.records[call.record.id] == call.record)
            && if w in s'.workers && s'.workers[w] == Done(None) then
                 && call.record.status == AwaitingReview
                 && Rewrites(s.db, s'.db, call.record,
                             call.record.(status := if call.decision == Reject then Revoked else Verified,
                                          version := call.record.version + 1))
                 && s'.db == s.db.(records := s'.db.records)
               else s'.db == s.db
  {
    hide Run, DbInv, Snap, Db.UpdateRecordStatus, Rewrites;
    StepFacts(moves, i, w);
    var s, call := At(moves, i), At(moves, i).workers[w];
    var target := if call.decision == Reject then Revoked else Verified;
    SnapStored(s.db, call.record);
    MovesExactly(s.db, call.record, target);
    if s.db.UpdateRecordStatus(call.record.id, AwaitingReview, target, call.record.version).Ok? {
      MoveWrites(s.db, call.record, AwaitingReview, target);
    }
  }

  lemma RevocationAtCommit(moves: seq<Move>, i: nat, w: nat)
    requires StepsAt(moves, i, w) && At(moves, i).workers[w].ReApply?
    ensures var s, s', call := At(moves, i), At(moves, i + 1), At(moves, i).workers[w];
            && call.record.id in s.db.records && w in s'.workers
            && (s'.workers[w] == Done(None) <==> s.db.records[call.record.id] == call.record)
    ensures var s, s', call := At(moves, i), At(moves, i + 1), At(moves, i).workers[w];
            if w in s'.workers && s'.workers[w] == Done(None) then
              && RecordEdge(call.record.status, Revoked)
              && Rewrites(s.db, s'.db, call.record, call.record.(status := Revoked, version := call.record.version + 1))
              && s'.db == s.db.(records := s'.db.records)
            else s'.db == s.db
  {
    hide Run, DbInv, Snap, Db.UpdateRecordStatus, Rewrites;
    StepFacts(moves, i, w);
    var s, call := At(moves, i), At(moves, i).workers[w];
    SnapStored(s.db, call.record);
    MovesExactly(s.db, call.record, Revoked);
    if s.db.UpdateRecordStatus(call.record.id, call.record.status, Revoked, call.record.version).Ok? {
      MoveWrites(s.db, call.record, call.record.status, Revoked);
    }
  }

  // --- the customer's hours ---------------------------------------------------------

  // Reporting hours succeeds exactly for a known device whose day has hours already
  // or whose new row's id is free. The day then has the hours reported; a row that
  // was there keeps its id, so conflicts stay linked to it.
  lemma ReportingHours(db: Db, id: Id, deviceId: Id, day: int, hours: real)
    ensures var reported := db.UpsertWorkHour(id, deviceId, day, hours);
            var free := forall k | k in db.workHours :: db.workHours[k].id != id;
            && (reported.Ok? <==> deviceId in db.devices && ((deviceId, day) in db.workHours || free))
            && (reported.Ok? ==>
                  var db' := reported.value;
                  && (deviceId, day) in db'.workHours && db'.workHours[(deviceId, day)].hours == hours
                  && db'.workHours[(deviceId, day)].id
                     == (if (deviceId, day) in db.workHours then db.workHours[(deviceId, day)].id else id)
                  && db' == db.(workHours := db.workHours[(deviceId, day) := db'.workHours[(deviceId, day)]]))
  {
    if db.HoursIdTaken(id) {
      var k :| k in db.workHours.Keys && db.workHours[k].id == id;
      assert k in db.workHours;
    }
  }

  // A cursor never goes back: it becomes the larger of what it was and what is
  // reported, for a known order.
  lemma CursorNeverGoesBack(db: Db, orderId: Id, v: int)
    ensures var raised := db.UpsertBackfill(orderId, v);
            && (raised.Ok? <==> orderId in db.orders)
            && (raised.Ok? ==>
                  var db' := raised.value;
                  && orderId in db'.cursors && v <= db'.cursors[orderId]
                  && (orderId in db.cursors ==> db.cursors[orderId] <= db'.cursors[orderId])
                  && (db'.cursors[orderId] == v || (orderId in db.cursors && db'.cursors[orderId] == db.cursors[orderId]))
                  && db' == db.(cursors := db.cursors[orderId := db'.cursors[orderId]]))
  {
  }

  // --- the lease protocol -----------------------------------------------------------

  // A claimed batch is leased to its owner until the deadline and cannot be
  // claimed again; anyone's release undoes the claim but for two versions.
  lemma ClaimExcludesUntilReleased(db: Db, b: Id, owner: Id, until: int, other: Id, later: int)
    requires db.ClaimLease(b, owner, until).Ok?
    ensures var claimed := db.ClaimLease(b, owner, until).value;
            && b in claimed.batches && claimed.batches[b].status == BatchLeasing
            && claimed.batches[b].leaseOwner == Some(owner) && claimed.batches[b].leaseUntil == Some(until)
            && claimed.ClaimLease(b, other, later) == Err(LeaseHeld)
            && claimed.ReleaseLease(b).Ok?
            && var released := claimed.ReleaseLease(b).value;
               && released == db.(batches := db.batches[b := released.batches[b]])
               && released.batches[b] == db.batches[b].(leaseOwner := None, leaseUntil := None, version := db.batches[b].version + 2)
               && released.ClaimLease(b, other, later).Ok?
  {
    var claimed := db.ClaimLease(b, owner, until).value;
    var released := claimed.ReleaseLease(b).value;
    assert released.batches == db.batches[b := released.batches[b]];
  }
}
