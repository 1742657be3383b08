// The sync service's calls from call to return, with nobody else moving: what
// each leaves in the tables and reports, told from the tables it found.
module SyncCalls {
  import opened Common
  import opened Status
  import opened SyncDb
  import opened SyncInv
  import opened SyncTx
  import opened SyncVerdicts
  import opened SyncMachine
  import opened SyncAlone
  import opened SyncCommits

  // --- Adjudicate ---------------------------------------------------------------

  // The conflict r is ruled on: against the hours the customer reported for the
  // day r was taken on.
  ghost predicate Ruled(db: Db, r: Record, winner: Winner, adjudicator: Id, rulingId: Id, db': Db) {
    && r.id !in db.rulings && r.id in db'.rulings
    && var a := db'.rulings[r.id];
       && db' == db.(records := db.records[r.id := r.(status := Adjudicated, version := r.version + 1)],
                     rulings := db.rulings[r.id := a])
       && a.id == rulingId && a.recordId == r.id && r.conflictId == Some(a.workHourId)
       && a.winner == winner && a.attributedTo != winner && a.adjudicatorId == adjudicator
       && exists d ::
            && TakenOn(r, d) && (r.deviceId, d) in db.workHours && db.workHours[(r.deviceId, d)].id == a.workHourId
            && Distance(r.hours, db.workHours[(r.deviceId, d)].hours, a.deltaHours)
  }

  ghost predicate RulingReturns(
    db: Db, id: Id, winner: Winner, adjudicator: Id, rulingId: Id, db': Db, failure: Option<Error>)
  {
    if id !in db.records then failure == Some(NotFound) && db' == db
    else if db.records[id].status == Adjudicated then failure == None && db' == db
    else if db.records[id].status != Conflict then failure == Some(IllegalTransition) && db' == db
    else if exists k | k in db.rulings :: db.rulings[k].id == rulingId then failure == Some(AlreadyExists) && db' == db
    else if adjudicator !in db.persons then failure == Some(Driver) && db' == db
    else failure == None && Ruled(db, db.records[id], winner, adjudicator, rulingId, db')
  }

  lemma HoursOfTheDay(db: Db, r: Record)
    requires DbInv(db) && r.id in db.records && db.records[r.id] == r && r.status == Conflict
    ensures r.Day() in db.workHours && r.conflictId == Some(db.workHours[r.Day()].id)
    ensures exists d :: TakenOn(r, d) && r.Day() == (r.deviceId, d)
  {
    ConflictHasHours(db, r);
    DayTaken(r, r.Day().1);
  }

  lemma RulingIsRuled(db: Db, r: Record, winner: Winner, adjudicator: Id, rulingId: Id)
    requires DbInv(db) && r.id in db.records && db.records[r.id] == r && r.status == Conflict
    requires r.Day() in db.workHours
    requires Adjudicate(db, r, db.workHours[r.Day()], winner, adjudicator, rulingId).Ok?
    ensures Ruled(db, r, winner, adjudicator, rulingId,
                  Adjudicate(db, r, db.workHours[r.Day()], winner, adjudicator, rulingId).value)
  {
    hide DbInv, TakenOn, Db.RulingIdTaken, Db.HoursIdTaken;
    StoredIsLinked(db, r.id);
    HoursOfTheDay(db, r);
    RulingWrites(db, r, db.workHours[r.Day()], winner, adjudicator, rulingId);
  }

  lemma RulingFails(db: Db, r: Record, wh: WorkHour, winner: Winner, adjudicator: Id, rulingId: Id)
    requires DbInv(db) && r.id in db.records && db.records[r.id] == r && r.status == Conflict
    requires r.conflictId == Some(wh.id)
    ensures db.RulingIdTaken(rulingId) ==> Adjudicate(db, r, wh, winner, adjudicator, rulingId) == Err(AlreadyExists)
    ensures !db.RulingIdTaken(rulingId) && adjudicator !in db.persons ==>
              Adjudicate(db, r, wh, winner, adjudicator, rulingId) == Err(Driver)
    ensures !db.RulingIdTaken(rulingId) && adjudicator in db.persons ==>
              Adjudicate(db, r, wh, winner, adjudicator, rulingId).Ok?
  {
    hide DbInv;
    ConflictHasHours(db, r);
  }

  lemma {:induction false} AdjudicateReturns(
    db: Db, now: int, id: Id, winner: Winner, adjudicator: Id, rulingId: Id, os: seq<Oracle>, db': Db, failure: Option<Error>)
    requires DbInv(db) && |os| == 3
    requires Alone(db, now, AdStart(id, winner, adjudicator, rulingId), os) == (db', Done(failure))
    ensures RulingReturns(db, id, winner, adjudicator, rulingId, db', failure)
  {
    hide DbInv, Alone, Ruled;
    var w0 := AdStart(id, winner, adjudicator, rulingId);
    if id !in db.records || db.records[id].status !in {Conflict, Adjudicated} {
      Return(db, now, w0, os, db, StepWorker(db, now, w0, os[0]).1.failure);
    } else if db.records[id].status == Adjudicated {
      StoredIsLinked(db, id);
      TakeStep(db, now, w0, os, db, AdExisting(db.records[id]));
      Return(db, now, AdExisting(db.records[id]), os[1..], db, None);
    } else {
      ConflictReturns(db, now, id, winner, adjudicator, rulingId, os, db', failure);
    }
  }

  lemma ConflictReturns(
    db: Db, now: int, id: Id, winner: Winner, adjudicator: Id, rulingId: Id, os: seq<Oracle>, db': Db, failure: Option<Error>)
    requires DbInv(db) && |os| == 3 && id in db.records && db.records[id].status == Conflict
    requires Alone(db, now, AdStart(id, winner, adjudicator, rulingId), os) == (db', Done(failure))
    ensures RulingReturns(db, id, winner, adjudicator, rulingId, db', failure)
  {
    hide DbInv, Alone, Ruled, Adjudicate;
    var w0, r := AdStart(id, winner, adjudicator, rulingId), db.records[id];
    StoredIsLinked(db, id);
    HoursOfTheDay(db, r);
    var wh := db.workHours[r.Day()];
    var w2 := AdRule(r, wh, winner, adjudicator, rulingId);
    TakeStep(db, now, w0, os, db, AdHours(r, winner, adjudicator, rulingId));
    TakeStep(db, now, AdHours(r, winner, adjudicator, rulingId), os[1..], db, w2);
    var ruled := Adjudicate(db, r, wh, winner, adjudicator, rulingId);
    Return(db, now, w2, os[2..], InTx(db, ruled), if ruled.Ok? then None else Some(ruled.error));
    RulingFails(db, r, wh, winner, adjudicator, rulingId);
    if ruled.Ok? {
      RulingIsRuled(db, r, winner, adjudicator, rulingId);
    }
  }

  // --- ManualVerify ----------------------------------------------------------------

  // The review is written to the manual row m of the waiting record r, and r
  // follows it.
  ghost predicate ReviewedAndMoved(db: Db, r: Record, m: Manual, reviewer: Id, decision: Decision, db': Db) {
    db' == db.(
      manuals := db.manuals[m.id := Manual(m.id, m.recordId, m.orderId, true, Some(reviewer), Some(decision), m.version + 1)],
      records := db.records[r.id := r.(status := if decision == Accept then Verified else Revoked, version := r.version + 1)])
  }

  ghost predicate ReviewReturns(db: Db, id: Id, reviewer: Id, decision: Decision, db': Db, failure: Option<Error>) {
    if id !in db.records || db.records[id].manualId.None? then failure == Some(NotFound) && db' == db
    else
      var r := db.records[id];
      && r.manualId.value in db.manuals
      && var m := db.manuals[r.manualId.value];
         if r.status == AwaitingReview && !m.reviewed then
           failure == None && ReviewedAndMoved(db, r, m, reviewer, decision, db')
         else
           && db' == db
           && failure == if m.reviewed then None else Some(IllegalTransition)
  }

  lemma ManualNamed(db: Db, r: Record)
    requires DbInv(db) && r.id in db.records && db.records[r.id] == r
    ensures db.ManualByRecord(r.id).None? <==> r.manualId.None?
    ensures r.manualId.Some? ==>
              && r.manualId.value in db.manuals && db.ManualByRecord(r.id) == Some(db.manuals[r.manualId.value])
              && db.manuals[r.manualId.value].id == r.manualId.value
              && r.status in {AwaitingReview, Verified, Revoked}
  {
    hide IndexOk, BatchOk;
    StoredIsLinked(db, r.id);
  }

  lemma {:induction false} ManualVerifyReturns(
    db: Db, now: int, id: Id, reviewer: Id, decision: Decision, os: seq<Oracle>, db': Db, failure: Option<Error>)
    requires DbInv(db) && |os| == 4
    requires Alone(db, now, MvStart(id, reviewer, decision), os) == (db', Done(failure))
    ensures ReviewReturns(db, id, reviewer, decision, db', failure)
  {
    hide DbInv, Alone, ReviewedAndMoved;
    var w0 := MvStart(id, reviewer, decision);
    if id !in db.records {
      Return(db, now, w0, os, db, Some(NotFound));
    } else {
      var r := db.records[id];
      StoredIsLinked(db, id);
      ManualNamed(db, r);
      var w1 := MvManual(r, reviewer, decision);
      TakeStep(db, now, w0, os, db, w1);
      if r.manualId.None? || r.status != AwaitingReview || db.manuals[r.manualId.value].reviewed {
        Return(db, now, w1, os[1..], db, StepWorker(db, now, w1, os[1]).1.failure);
      } else {
        TakeStep(db, now, w1, os[1..], db, MvReview(r, db.manuals[r.manualId.value], reviewer, decision));
        ReviewThenMove(db, now, r, db.manuals[r.manualId.value], reviewer, decision, os[2..], db', failure);
      }
    }
  }

  lemma ReviewThenMove(
    db: Db, now: int, r: Record, m: Manual, reviewer: Id, decision: Decision, os: seq<Oracle>, db': Db, failure: Option<Error>)
    requires r.id in db.records && db.records[r.id] == r && r.status == AwaitingReview
    requires m.id in db.manuals && db.manuals[m.id] == m && |os| == 2
    requires Alone(db, now, MvReview(r, m, reviewer, decision), os) == (db', Done(failure))
    ensures failure == None && ReviewedAndMoved(db, r, m, reviewer, decision, db')
  {
    hide Alone;
    var db1 := db.ReviewManual(m.id, reviewer, decision, m.version).value;
    var w1 := MvRecord(r, m.id, decision);
    TakeStep(db, now, MvReview(r, m, reviewer, decision), os, db1, w1);
    Return(db1, now, w1, os[1..], StepWorker(db1, now, w1, os[1]).0, None);
  }

  // --- CorrectRecord and RevokeRecord ------------------------------------------------

  ghost predicate CorrectionReturns(db: Db, id: Id, hours: real, db': Db, failure: Option<Error>) {
    if id !in db.records then failure == Some(NotFound) && db' == db
    else if db.records[id].status == Revoked then failure == Some(IllegalTransition) && db' == db
    else
      var r := db.records[id];
      && failure == None
      && db' == db.(records := db.records[id :=
           if r.status == Accepted then r.(hours := hours, status := Verified, version := r.version + 2)
           else r.(hours := hours, version := r.version + 1)])
  }

  lemma {:induction false} CorrectReturns(
    db: Db, now: int, id: Id, hours: real, os: seq<Oracle>, db': Db, failure: Option<Error>)
    requires DbInv(db) && |os| == 2
    requires Alone(db, now, CoStart(id, hours), os) == (db', Done(failure))
    ensures CorrectionReturns(db, id, hours, db', failure)
  {
    hide DbInv, Alone, Correct;
    var w0 := CoStart(id, hours);
    if id !in db.records || db.records[id].status == Revoked {
      Return(db, now, w0, os, db, StepWorker(db, now, w0, os[0]).1.failure);
    } else {
      var r := db.records[id];
      StoredIsLinked(db, id);
      TakeStep(db, now, w0, os, db, CoApply(r, hours));
      CorrectsExactly(db, r, hours);
      CorrectionWrites(db, r, hours);
      Return(db, now, CoApply(r, hours), os[1..], Correct(db, r, hours).value, None);
    }
  }

  ghost predicate RevocationReturns(db: Db, id: Id, db': Db, failure: Option<Error>) {
    if id !in db.records then failure == Some(NotFound) && db' == db
    else
      match db.records[id].status
      case Revoked => failure == None && db' == db
      case Conflict => failure == Some(IllegalTransition) && db' == db
      case Adjudicated => failure == Some(IllegalTransition) && db' == db
      case _ =>
        && failure == None
        && db' == db.(records := db.records[id := db.records[id].(status := Revoked, version := db.records[id].version + 1)])
  }

  lemma {:induction false} RevokeReturns(db: Db, now: int, id: Id, os: seq<Oracle>, db': Db, failure: Option<Error>)
    requires DbInv(db) && |os| == 2
    requires Alone(db, now, ReStart(id), os) == (db', Done(failure))
    ensures RevocationReturns(db, id, db', failure)
  {
    hide DbInv, Alone, AssertTransition;
    var w0 := ReStart(id);
    if id in db.records {
      RevocableFrom(db.records[id].status);
    }
    if id !in db.records || db.records[id].status in {Revoked, Conflict, Adjudicated} {
      Return(db, now, w0, os, db, StepWorker(db, now, w0, os[0]).1.failure);
    } else {
      var r := db.records[id];
      StoredIsLinked(db, id);
      TakeStep(db, now, w0, os, db, ReApply(r));
      Return(db, now, ReApply(r), os[1..], db.UpdateRecordStatus(id, r.status, Revoked, r.version).value, None);
    }
  }

  lemma RevocableFrom(s: RecordStatus)
    ensures AssertTransition(recordTransitions, s, Revoked) <==> s !in {Conflict, Adjudicated}
  {
    RecordEdgeIsTheTable(s, Revoked);
  }
}
