// Reclaiming expired leases compares deadlines as text, so it is exact only to
// the second.
module LeaseTiming {
  import opened Common
  import opened Status
  import opened SyncDb
  import opened TimeText

  predicate Leased(db: Db, b: Id) {
    b in db.batches && db.batches[b].status == BatchLeasing && db.batches[b].leaseUntil.Some?
  }

  predicate Freed(db: Db, b: Id, now: int) {
    b in db.batches && db.ReclaimExpired(now).batches[b] != db.batches[b]
  }

  // Only a lease whose deadline text sorts first is freed, and then fully.
  lemma FreedWhenTextBefore(db: Db, b: Id, now: int)
    requires Leased(db, b)
    ensures Freed(db, b, now) <==> TextBefore(db.batches[b].leaseUntil.value, now)
    ensures Freed(db, b, now) ==> db.ReclaimExpired(now).batches[b] == Db.Unleased(db.batches[b])
  {
    hide TextBefore;
  }

  // In different whole seconds a lease is freed exactly when it has expired.
  lemma ReclaimIsExactAcrossSeconds(db: Db, b: Id, now: int)
    requires Leased(db, b) && InRange(db.batches[b].leaseUntil.value) && InRange(now)
    requires db.batches[b].leaseUntil.value / SECOND != now / SECOND
    ensures Freed(db, b, now) <==> db.batches[b].leaseUntil.value < now
  {
    hide TextBefore, Freed;
    FreedWhenTextBefore(db, b, now);
    DifferentSeconds(db.batches[b].leaseUntil.value, now);
  }

  // A lease with a second or more left is never freed; one expired by a second
  // or more always is. A batch that is not leasing is never touched.
  lemma ReclaimIsExactToTheSecond(db: Db, b: Id, now: int)
    requires b in db.batches && InRange(now)
    requires db.batches[b].leaseUntil.Some? ==> InRange(db.batches[b].leaseUntil.value)
    ensures Leased(db, b) && db.batches[b].leaseUntil.value + SECOND <= now ==> Freed(db, b, now)
    ensures Freed(db, b, now) ==> Leased(db, b) && db.batches[b].leaseUntil.value < now + SECOND
  {
    hide TextBefore;
    if Leased(db, b) {
      ASecondApart(db.batches[b].leaseUntil.value, now);
      ASecondApart(now, db.batches[b].leaseUntil.value);
    }
  }

  // Reclaiming frees a lease exactly when it has expired, except when deadline
  // and clock stand in the same second and the earlier of the two is written
  // with a proper prefix of the later one's trimmed fraction.
  lemma ReclaimIsExactUnlessMisread(db: Db, b: Id, now: int)
    requires Leased(db, b) && InRange(db.batches[b].leaseUntil.value) && InRange(now)
    ensures var until := db.batches[b].leaseUntil.value;
            (Freed(db, b, now) <==> until < now) <==> !Misordered(until, now)
  {
    hide TextBefore, Freed, Misordered;
    FreedWhenTextBefore(db, b, now);
    TextOrderExact(db.batches[b].leaseUntil.value, now);
  }

  // On the whole second every lease ending later in that second is freed, up to
  // a second before its end.
  lemma FreedTooEarly(db: Db, b: Id, now: int)
    requires Leased(db, b) && InRange(db.batches[b].leaseUntil.value) && InRange(now)
    requires now % SECOND == 0 && now < db.batches[b].leaseUntil.value < now + SECOND
    ensures Freed(db, b, now)
  {
    hide TextBefore, Freed, Misread;
    FreedWhenTextBefore(db, b, now);
    TextOrderExact(db.batches[b].leaseUntil.value, now);
    WholeSecondMisread(now, db.batches[b].leaseUntil.value);
  }

  // A lease that ended on the whole second is not freed for the rest of it.
  lemma FreedTooLate(db: Db, b: Id, now: int)
    requires Leased(db, b) && InRange(db.batches[b].leaseUntil.value) && InRange(now)
    requires db.batches[b].leaseUntil.value % SECOND == 0
    requires db.batches[b].leaseUntil.value < now < db.batches[b].leaseUntil.value + SECOND
    ensures !Freed(db, b, now)
  {
    hide TextBefore, Freed, Misread;
    FreedWhenTextBefore(db, b, now);
    TextOrderExact(db.batches[b].leaseUntil.value, now);
    WholeSecondMisread(db.batches[b].leaseUntil.value, now);
  }

  // With deadlines and clock on whole seconds reclaiming is exact.
  lemma ReclaimIsExactOnWholeSeconds(db: Db, b: Id, now: int)
    requires Leased(db, b) && InRange(db.batches[b].leaseUntil.value) && InRange(now)
    requires db.batches[b].leaseUntil.value % SECOND == 0 && now % SECOND == 0
    ensures Freed(db, b, now) <==> db.batches[b].leaseUntil.value < now
  {
    hide TextBefore, Freed, Misread;
    ReclaimIsExactUnlessMisread(db, b, now);
    WholeSecondMisread(db.batches[b].leaseUntil.value, now);
    WholeSecondMisread(now, db.batches[b].leaseUntil.value);
  }
}
