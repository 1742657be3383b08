// What an automatic verdict on a record is, told from the tables alone: the
// window of the record's order, and the hours the customer reported for the
// record's device on the UTC day the record was taken.
module SyncVerdicts {
  import opened Common
  import opened Status
  import opened SyncDb
  import opened SyncInv
  import opened SyncTx
  import TimeText
  import Window

  // The record was taken on the UTC day d.
  predicate TakenOn(r: Record, d: int) {
    d * TimeText.DAY <= r.occurredAt < (d + 1) * TimeText.DAY
  }

  // More time has passed since the record was taken than its order allows; the
  // window is hours times nanoseconds in 64 bits.
  predicate Elapsed(db: Db, r: Record, now: int)
    requires r.orderId in db.orders
  {
    now - r.occurredAt > Wrap64(db.orders[r.orderId].windowHours * 3_600_000_000_000)
  }

  // The customer reported other hours for the device on day d.
  predicate Differs(db: Db, r: Record, d: int) {
    (r.deviceId, d) in db.workHours && db.workHours[(r.deviceId, d)].hours != r.hours
  }

  // r' is r judged at now, d being the day it was taken on.
  ghost predicate VerdictOn(db: Db, r: Record, d: int, now: int, r': Record)
    requires r.orderId in db.orders
  {
    && (r'.status == AwaitingReview <==> Elapsed(db, r, now))
    && (r'.status == Conflict <==> !Elapsed(db, r, now) && Differs(db, r, d))
    && (r'.status == Accepted <==> !Elapsed(db, r, now) && !Differs(db, r, d))
    && (r'.status == Conflict ==>
          (r.deviceId, d) in db.workHours && r'.conflictId == Some(db.workHours[(r.deviceId, d)].id))
    && (r'.status != Conflict ==> r'.conflictId == r.conflictId)
    && (if r'.status == AwaitingReview then r'.manualId.Some? else r'.manualId == r.manualId)
    && r' == r.(status := r'.status, conflictId := r'.conflictId, manualId := r'.manualId, version := r.version + 1)
  }

  ghost predicate VerdictAt(db: Db, r: Record, now: int, r': Record) {
    r.orderId in db.orders && exists d :: TakenOn(r, d) && VerdictOn(db, r, d, now, r')
  }

  lemma DayTaken(r: Record, d: int)
    ensures TakenOn(r, d) <==> r.Day() == (r.deviceId, d)
  {
    FloorDay(r.occurredAt, d);
  }

  lemma FloorDay(t: int, d: int)
    ensures d * TimeText.DAY <= t < (d + 1) * TimeText.DAY <==> t / TimeText.DAY == d
  {
  }

  // The rule the transactions follow gives exactly this verdict.
  lemma RuleGivesVerdict(db: Db, r: Record, now: int, r': Record)
    requires r.orderId in db.orders && Recorded(r, RuleIn(db, r, now), r')
    ensures VerdictAt(db, r, now, r')
  {
    var d := r.occurredAt / TimeText.DAY;
    DayTaken(r, d);
    FloorDay(r.occurredAt, d);
    assert VerdictOn(db, r, d, now, r');
  }

  // Only one day fits, so the verdict is on that day whichever way it is found.
  lemma VerdictOnItsDay(db: Db, r: Record, now: int, r': Record, d: int)
    requires VerdictAt(db, r, now, r') && TakenOn(r, d)
    ensures VerdictOn(db, r, d, now, r')
  {
    var e :| TakenOn(r, e) && VerdictOn(db, r, e, now, r');
    FloorDay(r.occurredAt, d);
    FloorDay(r.occurredAt, e);
  }
}
