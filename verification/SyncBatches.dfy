// When the transaction of ProcessBatch commits and what it writes besides the
// verdicts: the manual rows of the records it routes.
module SyncBatches {
  import opened Common
  import opened Status
  import opened SyncDb
  import opened SyncInv
  import opened SyncTx
  import opened SyncVerdicts
  import opened SyncMachine
  import opened SyncSafety
  import opened SyncCommits
  import Window

  // A record listed as pending whose window has elapsed goes to manual review.
  predicate Routes(db: Db, w: Resolution) {
    w.row.status == Pending && w.row.orderId in db.orders && Elapsed(db, w.row, w.now)
  }

  function OpenManual(w: Resolution): Manual {
    Manual(w.freshId, w.row.id, w.row.orderId, false, None, None, 1)
  }

  // The uuid drawn for row i is on a manual row already, of the table or of an
  // earlier row of the batch.
  predicate IdTaken(db: Db, work: seq<Resolution>, i: nat)
    requires i < |work|
  {
    work[i].freshId in db.manuals
    || exists j :: 0 <= j < i && Routes(db, work[j]) && work[j].freshId == work[i].freshId
  }

  predicate Clash(db: Db, work: seq<Resolution>) {
    exists i :: 0 <= i < |work| && Routes(db, work[i]) && IdTaken(db, work, i)
  }

  // Every row listed as pending is as it was listed.
  predicate Standing(db: Db, work: seq<Resolution>) {
    forall i | 0 <= i < |work| && work[i].row.status == Pending ::
      work[i].row.id in db.records && db.records[work[i].row.id] == work[i].row
  }

  function RoutedIds(db: Db, work: seq<Resolution>): set<Id> {
    set i | 0 <= i < |work| && Routes(db, work[i]) :: work[i].freshId
  }

  predicate RowRouted(w: Resolution, db': Db) {
    && w.freshId in db'.manuals && db'.manuals[w.freshId] == OpenManual(w)
    && w.row.id in db'.manualOf && db'.manualOf[w.row.id] == w.freshId
    && w.row.id in db'.records && db'.records[w.row.id].manualId == Some(w.freshId)
  }

  // The routed records have one open manual row each, and no other was made.
  ghost predicate RoutedOnly(db: Db, work: seq<Resolution>, db': Db) {
    && db'.manuals.Keys == db.manuals.Keys + RoutedIds(db, work)
    && (forall m | m in db.manuals :: m in db'.manuals && db'.manuals[m] == db.manuals[m])
    && (forall i | 0 <= i < |work| && Routes(db, work[i]) :: RowRouted(work[i], db'))
  }

  // --- what resolving leaves alone -------------------------------------------

  lemma RoutingKeepsRest(db: Db, r: Record, freshId: Id)
    requires RouteToManual(db, r, freshId).Ok?
    ensures RouteToManual(db, r, freshId).value.batches == db.batches
    ensures RouteToManual(db, r, freshId).value.rulings == db.rulings
  {
  }

  lemma ResolveKeepsRest(db: Db, r: Record, now: int, freshId: Id)
    requires Resolve(db, r, now, freshId).Ok?
    ensures Resolve(db, r, now, freshId).value.batches == db.batches
    ensures Resolve(db, r, now, freshId).value.rulings == db.rulings
  {
    hide RouteToManual, Window.Expired;
    if RouteToManual(db, r, freshId).Ok? {
      RoutingKeepsRest(db, r, freshId);
    }
  }

  lemma {:induction false} ResolveAllKeepsRest(db: Db, work: seq<Resolution>)
    requires ResolveAll(db, work).Ok?
    ensures ResolveAll(db, work).value.batches == db.batches
    ensures ResolveAll(db, work).value.rulings == db.rulings
  {
    hide Resolve;
    if work != [] {
      var n := |work| - 1;
      ResolveAllKeepsRest(db, work[..n]);
      ResolveKeepsRest(ResolveAll(db, work[..n]).value, work[n].row, work[n].now, work[n].freshId);
    }
  }

  // --- one row ---------------------------------------------------------------

  lemma NoManualYet(db: Db, r: Record)
    requires DbInv(db) && r.id in db.records && db.records[r.id] == r && r.status == Pending
    ensures r.id !in db.manualOf && db.ManualByRecord(r.id).None? && r.orderId in db.orders
  {
    hide IndexOk, BatchOk;
    assert RecordOk(db, r.id) && Linked(db, r);
  }

  lemma OrderKnown(db: Db, r: Record)
    requires DbInv(db) && Snap(db, r)
    ensures r.orderId in db.orders
  {
    assert RecordOk(db, r.id);
  }

  // A row somebody wrote since it was listed stops the transaction.
  lemma StaleRowFails(db: Db, w: Resolution)
    requires Snap(db, w.row) && w.row.status == Pending && db.records[w.row.id] != w.row
    ensures Resolve(db, w.row, w.now, w.freshId).Err?
  {
    hide Window.Expired;
    assert db.records[w.row.id].version != w.row.version;
  }

  // A row as listed is routed unless its uuid is taken, and otherwise written.
  lemma OldRowRoutes(db: Db, w: Resolution)
    requires w.row.status == Pending && w.row.id in db.records && db.records[w.row.id] == w.row
    requires w.row.orderId in db.orders && w.row.id !in db.manualOf && Elapsed(db, w.row, w.now)
    ensures var resolved := Resolve(db, w.row, w.now, w.freshId);
            if w.freshId in db.manuals then resolved == Err(AlreadyExists)
            else resolved.Ok? && resolved.value.manuals == db.manuals[w.freshId := OpenManual(w)]
                 && resolved.value.manualOf == db.manualOf[w.row.id := w.freshId]
                 && RowRouted(w, resolved.value)
  {
    assert Resolve(db, w.row, w.now, w.freshId) == RouteToManual(db, w.row, w.freshId);
    if w.freshId !in db.manuals {
      var created := db.CreateManual(w.freshId, w.row.id, w.row.orderId);
      assert RouteToManual(db, w.row, w.freshId) == created.value.SetManual(w.row.id, w.freshId, w.row.version);
    }
  }

  lemma TimelyRowResolves(db: Db, w: Resolution)
    requires w.row.status == Pending && w.row.id in db.records && db.records[w.row.id] == w.row
    requires w.row.orderId in db.orders && !Elapsed(db, w.row, w.now)
    ensures var resolved := Resolve(db, w.row, w.now, w.freshId);
            resolved.Ok? && resolved.value.manuals == db.manuals && resolved.value.manualOf == db.manualOf
  {
  }

  // A record that has a manual row already is linked to it, and no second one is
  // made.
  lemma RoutingReuses(db: Db, r: Record, m: Manual, freshId: Id)
    requires r.id in db.records && db.records[r.id] == r && db.ManualByRecord(r.id) == Some(m)
    ensures RouteToManual(db, r, freshId)
            == Ok(db.(records := db.records[r.id := r.(
                 status := AwaitingReview, manualId := Some(m.id), version := r.version + 1)]))
  {
  }

  // --- the whole batch ---------------------------------------------------------

  lemma RoutedIdsGrow(db: Db, work: seq<Resolution>)
    requires 0 < |work|
    ensures var n := |work| - 1;
            RoutedIds(db, work) == RoutedIds(db, work[..n]) + if Routes(db, work[n]) then {work[n].freshId} else {}
  {
    hide Routes;
    var n := |work| - 1;
    assert forall i | 0 <= i < n :: work[..n][i] == work[i];
    forall id | id in RoutedIds(db, work)
      ensures id in RoutedIds(db, work[..n]) + if Routes(db, work[n]) then {work[n].freshId} else {}
    {
      var i :| 0 <= i < |work| && Routes(db, work[i]) && work[i].freshId == id;
      if i < n {
        assert Routes(db, work[..n][i]) && work[..n][i].freshId == id;
      }
    }
    forall id | id in RoutedIds(db, work[..n])
      ensures id in RoutedIds(db, work)
    {
      var i :| 0 <= i < |work[..n]| && Routes(db, work[..n][i]) && work[..n][i].freshId == id;
      assert Routes(db, work[i]) && work[i].freshId == id;
    }
  }

  lemma TakenAmong(db: Db, work: seq<Resolution>, i: nat)
    requires i < |work|
    ensures IdTaken(db, work, i) <==> work[i].freshId in db.manuals.Keys + RoutedIds(db, work[..i])
  {
    hide Routes;
    if j :| 0 <= j < i && Routes(db, work[j]) && work[j].freshId == work[i].freshId {
      assert Routes(db, work[..i][j]) && work[..i][j].freshId == work[i].freshId;
    }
  }

  lemma PrefixTaken(db: Db, work: seq<Resolution>, n: nat, i: nat)
    requires i < n <= |work|
    ensures IdTaken(db, work[..n], i) <==> IdTaken(db, work, i)
  {
    hide Routes;
    TakenAmong(db, work, i);
    TakenAmong(db, work[..n], i);
    assert work[..n][..i] == work[..i];
  }

  lemma ClashGrows(db: Db, work: seq<Resolution>)
    requires 0 < |work|
    ensures var n := |work| - 1;
            Clash(db, work) <==> Clash(db, work[..n]) || (Routes(db, work[n]) && IdTaken(db, work, n))
  {
    hide Routes, IdTaken;
    var n := |work| - 1;
    forall i | 0 <= i < n
      ensures work[..n][i] == work[i] && (IdTaken(db, work[..n], i) <==> IdTaken(db, work, i))
    {
      PrefixTaken(db, work, n, i);
    }
    if Clash(db, work) {
      var i :| 0 <= i < |work| && Routes(db, work[i]) && IdTaken(db, work, i);
      if i < n {
        assert Routes(db, work[..n][i]) && IdTaken(db, work[..n], i);
      }
    }
    if Clash(db, work[..n]) {
      var i :| 0 <= i < n && Routes(db, work[..n][i]) && IdTaken(db, work[..n], i);
      assert Routes(db, work[i]) && IdTaken(db, work, i);
    }
  }

  lemma StandingGrows(db: Db, work: seq<Resolution>)
    requires 0 < |work|
    ensures var n := |work| - 1;
            Standing(db, work) <==> Standing(db, work[..n]) && (work[n].row.status == Pending ==>
              work[n].row.id in db.records && db.records[work[n].row.id] == work[n].row)
  {
    var n := |work| - 1;
    assert forall i | 0 <= i < n :: work[..n][i] == work[i];
    if Standing(db, work[..n]) {
      forall i | 0 <= i < n && work[i].row.status == Pending
        ensures work[i].row.id in db.records && db.records[work[i].row.id] == work[i].row
      {
        assert work[..n][i].row.status == Pending;
      }
    }
  }

  // What the rows before the last one left, as far as the last one is concerned.
  ghost predicate Left(db: Db, work: seq<Resolution>, mid: Db)
    requires 0 < |work|
  {
    var w := work[|work| - 1];
    && DbInv(mid) && mid.orders == db.orders
    && w.row.id in db.records && w.row.id in mid.records && mid.records[w.row.id] == db.records[w.row.id]
    && RoutedOnly(db, work[..|work| - 1], mid)
  }

  lemma PrefixLeaves(db: Db, work: seq<Resolution>, mid: Db)
    requires 0 < |work| && DistinctRows(work) && SnapsOf(db, work)
    requires GoodStep(db, mid) && Outcome(db, work[..|work| - 1], mid)
    requires RoutedOnly(db, work[..|work| - 1], mid)
    ensures Left(db, work, mid)
  {
    hide DbInv, Evolves, MovesAlongEdges, RoutedOnly, Decided;
    var n := |work| - 1;
    assert Snap(db, work[n].row);
    assert forall i | 0 <= i < n :: work[..n][i].row.id == work[i].row.id != work[n].row.id;
  }

  // mid and the tables after w agree on all that is not w's.
  ghost predicate WritesOnly(db: Db, w: Resolution, mid: Db, db': Db) {
    && (forall id | id in mid.records && id != w.row.id :: id in db'.records && db'.records[id] == mid.records[id])
    && (if Routes(db, w) then
          w.freshId !in mid.manuals && db'.manuals == mid.manuals[w.freshId := OpenManual(w)]
          && db'.manualOf == mid.manualOf[w.row.id := w.freshId] && RowRouted(w, db')
        else db'.manuals == mid.manuals && db'.manualOf == mid.manualOf)
  }

  lemma StaysRouted(db: Db, e: Resolution, w: Resolution, mid: Db, db': Db)
    requires WritesOnly(db, w, mid, db') && RowRouted(e, mid) && e.row.id != w.row.id
    ensures RowRouted(e, db')
  {
    hide Routes;
  }

  lemma ManualsAfter(db: Db, w: Resolution, mid: Db, db': Db)
    requires WritesOnly(db, w, mid, db')
    ensures db'.manuals.Keys == mid.manuals.Keys + if Routes(db, w) then {w.freshId} else {}
    ensures forall m | m in mid.manuals :: m in db'.manuals && db'.manuals[m] == mid.manuals[m]
    ensures Routes(db, w) ==> RowRouted(w, db')
  {
    hide Routes, RowRouted;
  }

  // The last row's write leaves what was routed before it.
  lemma RoutedGrows(db: Db, work: seq<Resolution>, mid: Db, db': Db)
    requires 0 < |work| && DistinctRows(work) && RoutedOnly(db, work[..|work| - 1], mid)
    requires WritesOnly(db, work[|work| - 1], mid, db')
    ensures RoutedOnly(db, work, db')
  {
    hide Routes, RowRouted, WritesOnly, RoutedIds;
    var n := |work| - 1;
    var w := work[n];
    RoutedIdsGrow(db, work);
    ManualsAfter(db, w, mid, db');
    forall i | 0 <= i < |work| && Routes(db, work[i])
      ensures RowRouted(work[i], db')
    {
      if i < n {
        assert Routes(db, work[..n][i]) && RowRouted(work[..n][i], mid);
        assert work[i].row.id != w.row.id;
        StaysRouted(db, work[i], w, mid, db');
      }
    }
  }

  lemma RecordsButOne(mid: Db, r: Record, now: int, db': Db)
    requires r.orderId in mid.orders && Resolved(mid, r, now, db')
    ensures forall id | id in mid.records && id != r.id :: id in db'.records && db'.records[id] == mid.records[id]
  {
  }

  lemma LastRowRouted(db: Db, work: seq<Resolution>, mid: Db)
    requires 0 < |work| && DistinctRows(work) && Left(db, work, mid)
    requires var w := work[|work| - 1]; w.row.status == Pending && mid.records[w.row.id] == w.row
    ensures var w := work[|work| - 1];
            var resolved := Resolve(mid, w.row, w.now, w.freshId);
            && (resolved.Ok? <==> !(Routes(db, w) && IdTaken(db, work, |work| - 1)))
            && (resolved.Err? ==> resolved.error == AlreadyExists)
            && (resolved.Ok? ==> RoutedOnly(db, work, resolved.value))
  {
    hide DbInv, IdTaken, RoutedIds, DistinctRows, Resolve;
    var n := |work| - 1;
    var w := work[n];
    NoManualYet(mid, w.row);
    TakenAmong(db, work, n);
    if Elapsed(mid, w.row, w.now) {
      OldRowRoutes(mid, w);
    } else {
      TimelyRowResolves(mid, w);
    }
    var resolved := Resolve(mid, w.row, w.now, w.freshId);
    if resolved.Ok? {
      InvGives(mid, w.row.id);
      SnapOfStored(mid, w.row.id);
      ResolveGood(mid, w.row, w.now, w.freshId);
      RecordsButOne(mid, w.row, w.now, resolved.value);
      RoutedGrows(db, work, mid, resolved.value);
    }
  }

  lemma LastRow(db: Db, work: seq<Resolution>, mid: Db)
    requires 0 < |work| && DistinctRows(work) && Left(db, work, mid) && Snap(db, work[|work| - 1].row)
    ensures work[|work| - 1].row.id in db.records
    ensures var w := work[|work| - 1];
            var resolved := Resolve(mid, w.row, w.now, w.freshId);
            var stands := w.row.status == Pending ==> db.records[w.row.id] == w.row;
            && (resolved.Ok? <==> stands && !(Routes(db, w) && IdTaken(db, work, |work| - 1)))
            && (resolved.Err? && stands ==> resolved.error == AlreadyExists)
            && (resolved.Ok? ==> RoutedOnly(db, work, resolved.value))
  {
    hide DbInv, IdTaken, RoutedOnly, DistinctRows, RecordEvolves;
    var w := work[|work| - 1];
    if w.row.status != Pending {
      assert !Routes(db, w);
      RoutedGrows(db, work, mid, mid);
    } else if db.records[w.row.id] == w.row {
      LastRowRouted(db, work, mid);
    } else {
      StaleRowFails(mid, w);
    }
  }

  // The transaction commits exactly when every row listed as pending is still as
  // listed and no routed record draws a taken uuid. A taken uuid is reported as
  // such.
  lemma {:induction false} ResolvesExactly(db: Db, work: seq<Resolution>)
    requires DbInv(db) && SnapsOf(db, work) && DistinctRows(work)
    ensures ResolveAll(db, work).Ok? <==> Standing(db, work) && !Clash(db, work)
    ensures ResolveAll(db, work).Err? && Standing(db, work) ==> ResolveAll(db, work).error == AlreadyExists
    ensures ResolveAll(db, work).Ok? ==> RoutedOnly(db, work, ResolveAll(db, work).value)
  {
    hide DbInv, GoodStep, Outcome, Standing, Clash, RoutedOnly, Left, Resolve, Snap, Routes, IdTaken;
    if work == [] {
      NothingRouted(db);
    } else {
      var n := |work| - 1;
      assert forall i | 0 <= i < n :: work[..n][i] == work[i];
      ResolvesExactly(db, work[..n]);
      ClashGrows(db, work);
      StandingGrows(db, work);
      if ResolveAll(db, work[..n]).Ok? {
        var mid := ResolveAll(db, work[..n]).value;
        ResolveAllGood(db, work[..n]);
        PrefixLeaves(db, work, mid);
        LastRow(db, work, mid);
      }
    }
  }

  lemma NothingRouted(db: Db)
    ensures RoutedOnly(db, [], db) && Standing(db, []) && !Clash(db, [])
  {
  }

  // In every run: a resolving step whose driver does not fail commits exactly
  // under that condition, and makes exactly the manual rows of what it routes.
  lemma ResolutionCommitsExactly(moves: seq<Move>, i: nat, w: nat)
    requires StepsAt(moves, i, w) && At(moves, i).workers[w].PbResolve?
    requires !moves[i].oracle.fail && Supplies(moves[i].oracle, |At(moves, i).workers[w].rows|, At(moves, i).now)
    ensures var s, s', o := At(moves, i), At(moves, i + 1), moves[i].oracle;
            var work := Work(s.workers[w].rows, o);
            && w in s'.workers
            && (s'.workers[w].PbFinish? <==> Standing(s.db, work) && !Clash(s.db, work))
            && (s'.workers[w].PbFinish? ==> RoutedOnly(s.db, work, s'.db))
  {
    hide Run, DbInv, Snap, Standing, Clash, RoutedOnly, ResolveAll;
    StepFacts(moves, i, w);
    var s, call, o := At(moves, i), At(moves, i).workers[w], moves[i].oracle;
    WorkFacts(call.rows, o);
    ResolvesExactly(s.db, Work(call.rows, o));
  }
}
