// ProcessBatch from call to return, with nobody else moving.
module SyncBatchCalls {
  import opened Common
  import opened Status
  import opened SyncDb
  import opened SyncInv
  import opened SyncTx
  import opened SyncVerdicts
  import opened SyncMachine
  import opened SyncAlone
  import opened SyncBatches
  import Statements = SyncStatements

  // The listed rows with the clock reading and the uuid each is resolved with.
  function Drawn(db: Db, order: seq<Id>, clocks: seq<int>, freshIds: seq<Id>): (work: seq<Resolution>)
    requires |clocks| == |freshIds| == |order| && forall k | 0 <= k < |order| :: order[k] in db.records
  {
    seq(|order|, k requires 0 <= k < |order| => Resolution(db.records[order[k]], clocks[k], freshIds[k]))
  }

  // The lease was taken and given back: two versions on, nothing else.
  ghost predicate GivenBack(db: Db, b: Id, db': Db) {
    && b in db.batches
    && db' == db.(batches := db.batches[b := db.batches[b].(
         leaseOwner := None, leaseUntil := None, version := db.batches[b].version + 2)])
  }

  // The batch is completed under its owner's lease, with its rows counted.
  ghost predicate BatchCompletes(db: Db, b: Id, owner: Id, until: int, db': Db) {
    && b in db.batches
    && db'.batches == db.batches[b := db.batches[b].(
         leaseOwner := Some(owner), leaseUntil := Some(until), status := BatchCompleted,
         processedCount := |set id | id in db.records && db.records[id].batchId == b|,
         version := db.batches[b].version + 2)]
    && db' == db.(batches := db'.batches, records := db'.records, manuals := db'.manuals, manualOf := db'.manualOf)
  }

  // Each pending row of the batch was judged at its own clock reading, every
  // other record is as it was, and each routed record has its open manual row.
  ghost predicate RowsJudged(db: Db, b: Id, work: seq<Resolution>, db': Db) {
    && db'.records.Keys == db.records.Keys
    && (forall id | id in db.records && !(db.records[id].batchId == b && db.records[id].status == Pending) ::
          db'.records[id] == db.records[id])
    && (forall k | 0 <= k < |work| && work[k].row.status == Pending ::
          work[k].row.id in db'.records && VerdictAt(db, work[k].row, work[k].now, db'.records[work[k].row.id]))
    && RoutedOnly(db, work, db')
  }

  // order is the listing, clocks and freshIds what its rows are resolved with.
  ghost predicate BatchReturns(
    db: Db, b: Id, owner: Id, until: int, driverFails: bool, order: seq<Id>, clocks: seq<int>, freshIds: seq<Id>,
    db': Db, failure: Option<Error>)
    requires |clocks| == |freshIds| == |order| && forall k | 0 <= k < |order| :: order[k] in db.records
  {
    var work := Drawn(db, order, clocks, freshIds);
    if b !in db.batches || db.batches[b].status != BatchPending then failure == Some(LeaseHeld) && db' == db
    else if driverFails then failure == Some(Driver) && GivenBack(db, b, db')
    else if Clash(db, work) then failure == Some(AlreadyExists) && GivenBack(db, b, db')
    else failure == None && BatchCompletes(db, b, owner, until, db') && RowsJudged(db, b, work, db')
  }

  // --- the transaction ---------------------------------------------------------------

  // The order lists the rows of the batch, each once.
  ghost predicate ListsBatch(db: Db, b: Id, order: seq<Id>) {
    && (forall k | 0 <= k < |order| :: order[k] in db.records && db.records[order[k]].batchId == b)
    && (forall j, k | 0 <= j < k < |order| :: order[j] != order[k])
    && (forall id | id in db.records && db.records[id].batchId == b :: exists k :: 0 <= k < |order| && order[k] == id)
  }

  lemma ListsGives(db: Db, b: Id, order: seq<Id>)
    requires Lists(db, b, order)
    ensures ListsBatch(db, b, order)
  {
    assert forall k | 0 <= k < |order| :: order[k] in db.RowsOf(b);
    forall id | id in db.records && db.records[id].batchId == b
      ensures exists k :: 0 <= k < |order| && order[k] == id
    {
      assert id in db.RowsOf(b);
    }
  }

  lemma {:induction false} ListingCounts(order: seq<Id>)
    requires forall j, k | 0 <= j < k < |order| :: order[j] != order[k]
    ensures |set k | 0 <= k < |order| :: order[k]| == |order|
  {
    if order != [] {
      var n := |order| - 1;
      ListingCounts(order[..n]);
      assert (set k | 0 <= k < |order| :: order[k]) == (set k | 0 <= k < n :: order[..n][k]) + {order[n]};
      assert order[n] !in (set k | 0 <= k < n :: order[..n][k]);
    }
  }

  lemma ListingIsTheBatch(db: Db, b: Id, order: seq<Id>)
    requires ListsBatch(db, b, order)
    ensures |set id | id in db.records && db.records[id].batchId == b| == |order|
  {
    ListingCounts(order);
    assert (set id | id in db.records && db.records[id].batchId == b) == (set k | 0 <= k < |order| :: order[k]);
  }

  lemma DrawnFacts(db: Db, b: Id, order: seq<Id>, clocks: seq<int>, freshIds: seq<Id>)
    requires DbInv(db) && ListsBatch(db, b, order) && |clocks| == |freshIds| == |order|
    ensures var work := Drawn(db, order, clocks, freshIds);
            SnapsOf(db, work) && DistinctRows(work) && Standing(db, work)
            && forall k | 0 <= k < |work| :: work[k].row.id == order[k]
  {
    hide DbInv, Snap;
    forall k | 0 <= k < |order|
      ensures Snap(db, db.records[order[k]]) && db.records[order[k]].id == order[k]
    {
      StoredIsLinked(db, order[k]);
    }
  }

  lemma OutcomeIsJudged(db: Db, b: Id, order: seq<Id>, work: seq<Resolution>, db': Db)
    requires ListsBatch(db, b, order) && |work| == |order|
    requires forall k | 0 <= k < |work| :: work[k].row.id == order[k] && work[k].row == db.records[order[k]]
    requires Outcome(db, work, db') && RoutedOnly(db, work, db')
    ensures RowsJudged(db, b, work, db')
  {
    hide RoutedOnly, VerdictAt, Recorded, RuleIn;
    forall k | 0 <= k < |work| && work[k].row.status == Pending
      ensures work[k].row.id in db'.records && VerdictAt(db, work[k].row, work[k].now, db'.records[work[k].row.id])
    {
      assert Decided(db, work[k], db');
      RuleGivesVerdict(db, work[k].row, work[k].now, db'.records[work[k].row.id]);
    }
    forall id | id in db.records && !(db.records[id].batchId == b && db.records[id].status == Pending)
      ensures db'.records[id] == db.records[id]
    {
      if db.records[id].batchId == b {
        var k :| 0 <= k < |order| && order[k] == id;
        assert Decided(db, work[k], db');
      } else {
        assert forall k | 0 <= k < |work| :: work[k].row.id != id;
      }
    }
  }

  // --- from call to return ---------------------------------------------------------------

  lemma ReleaseGivesBack(db: Db, b: Id, owner: Id, until: int)
    requires db.ClaimLease(b, owner, until).Ok?
    ensures db.ClaimLease(b, owner, until).value.ReleaseLease(b).Ok?
    ensures GivenBack(db, b, db.ClaimLease(b, owner, until).value.ReleaseLease(b).value)
  {
    var released := db.ClaimLease(b, owner, until).value.ReleaseLease(b).value;
    assert released.batches == db.batches[b := released.batches[b]];
  }

  lemma ReleaseReturns(db: Db, now: int, b: Id, cause: Error, os: seq<Oracle>, db': Db, failure: Option<Error>)
    requires os != [] && db.ReleaseLease(b).Ok?
    requires Alone(db, now, PbRelease(b, cause), os) == (db', Done(failure))
    ensures db' == db.ReleaseLease(b).value && failure == Some(cause)
  {
    hide Alone;
    Return(db, now, PbRelease(b, cause), os, db.ReleaseLease(b).value, Some(cause));
  }

  lemma FinishReturns(db: Db, now: int, b: Id, batch: Batch, n: nat, os: seq<Oracle>, db': Db, failure: Option<Error>)
    requires os != [] && b in db.batches && db.batches[b].version == batch.version
    requires Alone(db, now, PbFinish(b, batch, n), os) == (db', Done(failure))
    ensures failure == None
    ensures db' == db.(batches := db.batches[b := db.batches[b].(
              processedCount := n, status := BatchCompleted, version := batch.version + 1)])
  {
    hide Alone;
    Return(db, now, PbFinish(b, batch, n), os, db.UpdateBatchProgress(b, n, BatchCompleted, batch.version).value, None);
  }

  lemma FinishCompletes(db: Db, b: Id, owner: Id, until: int, mid: Db, order: seq<Id>, db': Db)
    requires db.ClaimLease(b, owner, until).Ok? && OnlyRecords(db.ClaimLease(b, owner, until).value, mid)
    requires mid.rulings == db.rulings && ListsBatch(db, b, order)
    requires db' == mid.(batches := mid.batches[b := mid.batches[b].(
               processedCount := |order|, status := BatchCompleted, version := mid.batches[b].version + 1)])
    ensures BatchCompletes(db, b, owner, until, db')
  {
    hide ListsBatch;
    ListingIsTheBatch(db, b, order);
    assert db'.batches == db.batches[b := db'.batches[b]];
  }

  lemma VerdictIgnoresBatches(db: Db, db1: Db, r: Record, now: int, r': Record)
    requires db1 == db.(batches := db1.batches) && VerdictAt(db1, r, now, r')
    ensures VerdictAt(db, r, now, r')
  {
    var d :| TakenOn(r, d) && VerdictOn(db1, r, d, now, r');
    assert VerdictOn(db, r, d, now, r');
  }

  // The lease columns play no part in the verdicts.
  lemma RoutesIgnoreBatches(db: Db, db1: Db, work: seq<Resolution>)
    requires db1 == db.(batches := db1.batches)
    ensures Clash(db1, work) == Clash(db, work) && RoutedIds(db1, work) == RoutedIds(db, work)
    ensures forall k | 0 <= k < |work| :: Routes(db1, work[k]) == Routes(db, work[k])
  {
    forall k | 0 <= k < |work|
      ensures Routes(db1, work[k]) == Routes(db, work[k])
    {
    }
    forall i | 0 <= i < |work|
      ensures IdTaken(db1, work, i) == IdTaken(db, work, i)
    {
    }
  }

  lemma JudgedIgnoresBatches(db: Db, db1: Db, b: Id, work: seq<Resolution>, mid: Db, db': Db)
    requires db1 == db.(batches := db1.batches) && db' == mid.(batches := db'.batches)
    requires RowsJudged(db1, b, work, mid)
    ensures RowsJudged(db, b, work, db')
  {
    hide VerdictAt, Routes, Clash, RoutedIds;
    RoutesIgnoreBatches(db, db1, work);
    forall k | 0 <= k < |work| && work[k].row.status == Pending
      ensures work[k].row.id in db'.records && VerdictAt(db, work[k].row, work[k].now, db'.records[work[k].row.id])
    {
      VerdictIgnoresBatches(db, db1, work[k].row, work[k].now, mid.records[work[k].row.id]);
    }
    forall k | 0 <= k < |work| && Routes(db, work[k])
      ensures RowRouted(work[k], db')
    {
      assert RowRouted(work[k], mid);
    }
  }

  // The transaction on the claimed tables, and what follows it.
  lemma ResolvedReturns(
    db: Db, now: int, b: Id, owner: Id, until: int, order: seq<Id>, rows: seq<Record>, os: seq<Oracle>,
    db': Db, failure: Option<Error>)
    requires DbInv(db) && db.ClaimLease(b, owner, until).Ok? && ListsBatch(db, b, order)
    requires |os| == 2 && !os[0].fail && Supplies(os[0], |rows|, now) && |rows| == |order|
    requires forall k | 0 <= k < |order| :: rows[k] == db.records[order[k]]
    requires var claimed := db.ClaimLease(b, owner, until).value;
             Alone(claimed, now, PbResolve(b, claimed.batches[b], rows), os) == (db', Done(failure))
    ensures BatchReturns(db, b, owner, until, false, order, os[0].clocks, os[0].freshIds, db', failure)
  {
    hide DbInv, Alone, ResolveAll, Outcome, GoodStep, Clash, RoutedOnly, RowsJudged, ListsBatch, SnapsOf, DistinctRows, Standing;
    var claimed, o := db.ClaimLease(b, owner, until).value, os[0];
    Statements.ClaimGood(db, b, owner, until);
    GoodGives(db, claimed);
    ListsSame(db, claimed, b, order);
    var work := Drawn(claimed, order, o.clocks, o.freshIds);
    assert work == Drawn(db, order, o.clocks, o.freshIds) == Work(rows, o);
    DrawnFacts(claimed, b, order, o.clocks, o.freshIds);
    ResolvesExactly(claimed, work);
    RoutesIgnoreBatches(db, claimed, work);
    var resolved := ResolveAll(claimed, work);
    var later, w0 := ClockAfter(now, PbResolve(b, claimed.batches[b], rows), o), PbResolve(b, claimed.batches[b], rows);
    if resolved.Err? {
      ReleaseGivesBack(db, b, owner, until);
      TakeStep(claimed, now, w0, os, claimed, PbRelease(b, AlreadyExists));
      ReleaseReturns(claimed, later, b, AlreadyExists, os[1..], db', failure);
    } else {
      var mid := resolved.value;
      ResolveAllGood(claimed, work);
      ResolveAllKeepsRest(claimed, work);
      OutcomeIsJudged(claimed, b, order, work, mid);
      OutcomeOnlyRecords(claimed, work, mid);
      TakeStep(claimed, now, w0, os, mid, PbFinish(b, claimed.batches[b], |rows|));
      FinishReturns(mid, later, b, claimed.batches[b], |rows|, os[1..], db', failure);
      FinishCompletes(db, b, owner, until, mid, order, db');
      JudgedIgnoresBatches(db, claimed, b, work, mid, db');
    }
  }

  lemma OutcomeOnlyRecords(db: Db, work: seq<Resolution>, db': Db)
    requires Outcome(db, work, db')
    ensures OnlyRecords(db, db')
  {
  }

  lemma GoodGives(db: Db, db': Db)
    requires GoodStep(db, db')
    ensures DbInv(db')
  {
  }

  lemma ListsSame(db: Db, db1: Db, b: Id, order: seq<Id>)
    requires ListsBatch(db, b, order) && db1.records == db.records
    ensures ListsBatch(db1, b, order)
    ensures forall k | 0 <= k < |order| :: order[k] in db.records
  {
  }

  // A driver failure of the listing or inside the transaction.
  lemma DriverFailureReturns(
    db: Db, now: int, b: Id, owner: Id, until: int, w: Worker, os: seq<Oracle>, db': Db, failure: Option<Error>)
    requires db.ClaimLease(b, owner, until).Ok? && 2 <= |os| && os[0].fail
    requires (w.PbList? || w.PbResolve?) && w.batchId == b
    requires Alone(db.ClaimLease(b, owner, until).value, now, w, os) == (db', Done(failure))
    ensures failure == Some(Driver) && GivenBack(db, b, db')
  {
    hide Alone;
    var claimed := db.ClaimLease(b, owner, until).value;
    ReleaseGivesBack(db, b, owner, until);
    TakeStep(claimed, now, w, os, claimed, PbRelease(b, Driver));
    ReleaseReturns(claimed, ClockAfter(now, w, os[0]), b, Driver, os[1..], db', failure);
  }

  lemma ListedReturns(
    db: Db, now: int, b: Id, owner: Id, until: int, os: seq<Oracle>, db': Db, failure: Option<Error>)
    requires DbInv(db) && db.ClaimLease(b, owner, until).Ok? && |os| == 3
    requires Lists(db, b, os[0].order) && ListsBatch(db, b, os[0].order) && Supplies(os[1], |os[0].order|, now)
    requires var claimed := db.ClaimLease(b, owner, until).value;
             Alone(claimed, now, PbList(b, claimed.batches[b]), os) == (db', Done(failure))
    ensures BatchReturns(
              db, b, owner, until, os[0].fail || os[1].fail, os[0].order, os[1].clocks, os[1].freshIds, db', failure)
  {
    hide DbInv, Alone, Supplies, BatchCompletes, RowsJudged, Clash;
    var claimed := db.ClaimLease(b, owner, until).value;
    var w0 := PbList(b, claimed.batches[b]);
    if os[0].fail {
      DriverFailureReturns(db, now, b, owner, until, w0, os, db', failure);
    } else {
      var rows := FetchListed(claimed, b, os[0].order);
      TakeStep(claimed, now, w0, os, claimed, PbResolve(b, claimed.batches[b], rows));
      if os[1].fail {
        DriverFailureReturns(db, now, b, owner, until, PbResolve(b, claimed.batches[b], rows), os[1..], db', failure);
      } else {
        ResolvedReturns(db, now, b, owner, until, os[0].order, rows, os[1..], db', failure);
      }
    }
  }

  lemma {:induction false} ProcessBatchReturns(
    db: Db, now: int, b: Id, owner: Id, ttl: int, os: seq<Oracle>, db': Db, failure: Option<Error>)
    requires DbInv(db) && |os| == 6 && Lists(db, b, os[3].order) && Supplies(os[4], |os[3].order|, now)
    requires Alone(db, now, PbStart(b, owner, ttl), os) == (db', Done(failure))
    ensures ListsBatch(db, b, os[3].order) && |os[4].clocks| == |os[4].freshIds| == |os[3].order|
    ensures BatchReturns(
              db, b, owner, now + ttl, os[3].fail || os[4].fail, os[3].order, os[4].clocks, os[4].freshIds, db', failure)
  {
    hide DbInv, Alone, Lists, BatchCompletes, RowsJudged, Clash, GivenBack;
    ListsGives(db, b, os[3].order);
    SuppliesGives(os[4], |os[3].order|, now);
    var w1 := PbClaim(b, owner, now + ttl);
    TakeStep(db, now, PbStart(b, owner, ttl), os, db, w1);
    if b !in db.batches || db.batches[b].status != BatchPending {
      Return(db, now, w1, os[1..], db, Some(LeaseHeld));
    } else {
      var claimed := db.ClaimLease(b, owner, now + ttl).value;
      TakeStep(db, now, w1, os[1..], claimed, PbReload(b));
      assert os[1..][1..] == os[2..] && os[2..][1..] == os[3..];
      TakeStep(claimed, now, PbReload(b), os[2..], claimed, PbList(b, claimed.batches[b]));
      ListedReturns(db, now, b, owner, now + ttl, os[3..], db', failure);
    }
  }

  lemma SuppliesGives(o: Oracle, n: nat, now: int)
    requires Supplies(o, n, now)
    ensures |o.clocks| == |o.freshIds| == n
  {
  }
}
