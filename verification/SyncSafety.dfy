// What holds in every interleaved run of the sync service, from an empty store.
module SyncSafety {
  import opened Common
  import opened Status
  import opened SyncDb
  import opened SyncInv
  import opened SyncTx
  import opened SyncVerdicts
  import opened SyncMachine

  ghost function At(moves: seq<Move>, i: nat): Sys
    requires i <= |moves|
  {
    Run(Init(), moves[..i])
  }

  // --- records -------------------------------------------------------------

  // No two different contents of a row ever carry the same version.
  lemma VersionImpliesContents(moves: seq<Move>, i: nat, j: nat)
    requires i <= j <= |moves|
    ensures forall id | id in At(moves, i).db.records ::
              id in At(moves, j).db.records
              && (At(moves, i).db.records[id].version == At(moves, j).db.records[id].version
                  ==> At(moves, i).db.records[id] == At(moves, j).db.records[id])
    ensures forall b | b in At(moves, i).db.batches ::
              b in At(moves, j).db.batches
              && (At(moves, i).db.batches[b].version == At(moves, j).db.batches[b].version
                  ==> At(moves, i).db.batches[b] == At(moves, j).db.batches[b])
    ensures forall m | m in At(moves, i).db.manuals ::
              m in At(moves, j).db.manuals
              && (At(moves, i).db.manuals[m].version == At(moves, j).db.manuals[m].version
                  ==> At(moves, i).db.manuals[m] == At(moves, j).db.manuals[m])
    ensures forall k | k in At(moves, i).db.workHours ::
              k in At(moves, j).db.workHours
              && (At(moves, i).db.workHours[k].version == At(moves, j).db.workHours[k].version
                  ==> At(moves, i).db.workHours[k] == At(moves, j).db.workHours[k])
  {
    hide Run;
    RunEvolves(moves, i, j);
    var db, db' := At(moves, i).db, At(moves, j).db;
    forall id | id in db.records
      ensures id in db'.records && (db.records[id].version == db'.records[id].version ==> db.records[id] == db'.records[id])
    {
      assert RecordEvolves(db.records[id], db'.records[id]);
    }
    forall m | m in db.manuals
      ensures m in db'.manuals && (db.manuals[m].version == db'.manuals[m].version ==> db.manuals[m] == db'.manuals[m])
    {
      assert ManualEvolves(db.manuals[m], db'.manuals[m]);
    }
  }

  // What a record was stored with is never rewritten.
  lemma FactsNeverChange(moves: seq<Move>, i: nat, j: nat, id: Id)
    requires i <= j <= |moves| && id in At(moves, i).db.records
    ensures id in At(moves, j).db.records
    ensures var r, r' := At(moves, i).db.records[id], At(moves, j).db.records[id];
            && r'.id == r.id && r'.orderId == r.orderId && r'.deviceId == r.deviceId
            && r'.responsibleId == r.responsibleId && r'.occurredAt == r.occurredAt
            && r'.receivedAt == r.receivedAt && r'.seqNo == r.seqNo && r'.content == r.content
            && r'.changeVersion == r.changeVersion && r'.batchId == r.batchId
  {
    hide Run;
    RunEvolves(moves, i, j);
    assert RecordEvolves(At(moves, i).db.records[id], At(moves, j).db.records[id]);
  }

  predicate Changes(db: Db, db': Db, id: Id) {
    id in db.records && id in db'.records && db.records[id].status != db'.records[id].status
  }

  // How often a record's status changes over a run, and how often it leaves pending.
  ghost function StatusChanges(moves: seq<Move>, id: Id): nat {
    if moves == [] then 0
    else StatusChanges(moves[..|moves| - 1], id)
         + if Changes(At(moves, |moves| - 1).db, At(moves, |moves|).db, id) then 1 else 0
  }

  ghost function Departures(moves: seq<Move>, id: Id): nat {
    if moves == [] then 0
    else Departures(moves[..|moves| - 1], id)
         + if Changes(At(moves, |moves| - 1).db, At(moves, |moves|).db, id)
              && At(moves, |moves| - 1).db.records[id].status == Pending then 1 else 0
  }

  // Every change of status in every run is an edge of the record table, although
  // SetConflict and SetManual check no status.
  lemma EveryChangeIsAnEdge(moves: seq<Move>, i: nat, id: Id)
    requires i < |moves| && Changes(At(moves, i).db, At(moves, i + 1).db, id)
    ensures CanTransition(recordTransitions, At(moves, i).db.records[id].status, At(moves, i + 1).db.records[id].status)
  {
    hide Run;
    RunStep(moves, i);
    RecordEdgeIsTheTable(At(moves, i).db.records[id].status, At(moves, i + 1).db.records[id].status);
  }

  ghost function RankIn(db: Db, id: Id): nat {
    if id in db.records then Rank(db.records[id].status) else 0
  }

  lemma RankStep(moves: seq<Move>, id: Id)
    requires 0 < |moves|
    ensures var db, db' := At(moves, |moves| - 1).db, At(moves, |moves|).db;
            RankIn(db, id) + (if Changes(db, db', id) then 1 else 0) <= RankIn(db', id)
  {
    hide Run;
    var db, db' := At(moves, |moves| - 1).db, At(moves, |moves|).db;
    RunStep(moves, |moves| - 1);
    if id in db.records {
      assert RecordEvolves(db.records[id], db'.records[id]);
    }
  }

  lemma {:induction false} ChangesBelowRank(moves: seq<Move>, id: Id)
    ensures StatusChanges(moves, id) <= RankIn(At(moves, |moves|).db, id)
  {
    hide Run;
    if moves != [] {
      var prefix := moves[..|moves| - 1];
      ChangesBelowRank(prefix, id);
      assert prefix[..|prefix|] == prefix && moves[..|moves| - 1] == prefix;
      RankStep(moves, id);
    }
  }

  lemma AtMostThreeStatusChanges(moves: seq<Move>, id: Id)
    ensures StatusChanges(moves, id) <= 3
  {
    ChangesBelowRank(moves, id);
  }

  lemma {:induction false} LeavesPendingAtMostOnce(moves: seq<Move>, id: Id)
    ensures Departures(moves, id) <= 1
    ensures Departures(moves, id) == 1 ==> 0 < RankIn(At(moves, |moves|).db, id)
  {
    hide Run;
    if moves != [] {
      var prefix := moves[..|moves| - 1];
      LeavesPendingAtMostOnce(prefix, id);
      assert prefix[..|prefix|] == prefix && moves[..|moves| - 1] == prefix;
      RankStep(moves, id);
    }
  }

  // --- the resolving transaction ---------------------------------------------

  ghost predicate Resolving(moves: seq<Move>, i: nat) {
    && i < |moves| && moves[i].StepOf?
    && moves[i].worker in At(moves, i).workers
    && At(moves, i).workers[moves[i].worker].PbResolve?
  }

  // The row was judged on the tables the transaction found, at a clock reading
  // the transaction took.
  ghost predicate Judged(s: Sys, s': Sys, id: Id)
    requires id in s.db.records && id in s'.db.records
  {
    exists now | s.now <= now <= s'.now :: VerdictAt(s.db, s.db.records[id], now, s'.db.records[id])
  }

  // Exactly the pending rows that carry the batch id were judged.
  ghost predicate BatchJudged(s: Sys, s': Sys, batchId: Id) {
    && s'.db.records.Keys == s.db.records.Keys
    && s'.db.workHours == s.db.workHours && s'.db.orders == s.db.orders
    && forall id | id in s.db.records ::
         if s.db.records[id].batchId == batchId && s.db.records[id].status == Pending then Judged(s, s', id)
         else s'.db.records[id] == s.db.records[id]
  }

  lemma JudgedFromWork(s: Sys, s': Sys, w: Resolution)
    requires w.row.id in s.db.records && w.row.id in s'.db.records
    requires w.row.status == Pending && Decided(s.db, w, s'.db) && s.now <= w.now <= s'.now
    ensures Judged(s, s', w.row.id)
  {
    hide VerdictAt;
    RuleGivesVerdict(s.db, w.row, w.now, s'.db.records[w.row.id]);
  }

  // The outcome of a resolving step, whatever else runs and whoever holds the
  // lease: either no table changed, or exactly the pending rows of the batch were
  // judged on the row, the order's window and the work hours as they stand.
  lemma VerdictsStandAtCommit(moves: seq<Move>, i: nat)
    requires Resolving(moves, i)
    ensures var s, s' := At(moves, i), At(moves, i + 1);
            var batchId := s.workers[moves[i].worker].batchId;
            && moves[i].worker in s'.workers
            && if s'.workers[moves[i].worker].PbFinish? then BatchJudged(s, s', batchId) else s'.db == s.db
  {
    hide Run, Inv;
    RunStep(moves, i);
    var s, w, o := At(moves, i), moves[i].worker, moves[i].oracle;
    CallIsOk(s, w);
    ResolvingOutcome(s, w, o);
  }

  lemma CallIsOk(s: Sys, w: nat)
    requires Inv(s) && w in s.workers
    ensures DbInv(s.db) && WorkerOk(s.db, s.workers[w])
  {
  }

  lemma ResolvingOutcome(s: Sys, w: nat, o: Oracle)
    requires DbInv(s.db) && w in s.workers && s.workers[w].PbResolve? && WorkerOk(s.db, s.workers[w])
    ensures var s' := Next(s, StepOf(w, o));
            var batchId := s.workers[w].batchId;
            && w in s'.workers
            && if s'.workers[w].PbFinish? then BatchJudged(s, s', batchId) else s'.db == s.db
  {
    hide DbInv, Snap, Outcome, Judged, GoodStep, ResolveAll;
    var call, s' := s.workers[w], Next(s, StepOf(w, o));
    if s'.workers[w].PbFinish? {
      var work := Work(call.rows, o);
      WorkFacts(call.rows, o);
      ResolveAllGood(s.db, work);
      OutcomeFrame(s.db, work, s'.db);
      forall id | id in s.db.records
        ensures if s.db.records[id].batchId == call.batchId && s.db.records[id].status == Pending
                then Judged(s, s', id)
                else s'.db.records[id] == s.db.records[id]
      {
        RowOutcome(s, s', call, o, id);
      }
    }
  }

  lemma OutcomeFrame(db: Db, work: seq<Resolution>, db': Db)
    requires Outcome(db, work, db')
    ensures db'.records.Keys == db.records.Keys && db'.workHours == db.workHours && db'.orders == db.orders
  {
  }

  lemma RowOutcome(s: Sys, s': Sys, call: Worker, o: Oracle, id: Id)
    requires call.PbResolve? && WorkerOk(s.db, call) && Supplies(o, |call.rows|, s.now)
    requires s'.now == ClockAfter(s.now, call, o) && Outcome(s.db, Work(call.rows, o), s'.db)
    requires id in s.db.records && id in s'.db.records
    ensures if s.db.records[id].batchId == call.batchId && s.db.records[id].status == Pending
            then Judged(s, s', id)
            else s'.db.records[id] == s.db.records[id]
  {
    hide Decided, Judged, VerdictAt, Snap;
    var work := Work(call.rows, o);
    WorkFacts(call.rows, o);
    assert id in s.db.RowsOf(call.batchId) <==> s.db.records[id].batchId == call.batchId;
    if id in s.db.RowsOf(call.batchId) {
      var k :| 0 <= k < |call.rows| && call.rows[k].id == id;
      assert Decided(s.db, work[k], s'.db);
      ListedRowOutcome(s, s', work[k]);
    } else {
      forall k | 0 <= k < |work|
        ensures work[k].row.id != id
      {
        assert call.rows[k].id in (set i | 0 <= i < |call.rows| :: call.rows[i].id);
      }
    }
  }

  // A row listed earlier is pending now exactly when it was listed so and has
  // not been written since.
  lemma ListedRowOutcome(s: Sys, s': Sys, w: Resolution)
    requires Snap(s.db, w.row) && Decided(s.db, w, s'.db) && s.now <= w.now <= s'.now
    ensures w.row.id in s.db.records && w.row.id in s'.db.records
    ensures if s.db.records[w.row.id].status == Pending then Judged(s, s', w.row.id)
            else s'.db.records[w.row.id] == s.db.records[w.row.id]
  {
    hide Judged, Recorded, RuleIn;
    if w.row.status == Pending {
      JudgedFromWork(s, s', w);
    }
  }

  // --- batches -----------------------------------------------------------------

  // A completed batch has no pending record, and its counts are the rows stored
  // under it, plus the inputs answered from rows already stored.
  lemma CompletedBatchesAreSettled(moves: seq<Move>, b: Id)
    requires b in At(moves, |moves|).db.batches
    ensures b in At(moves, |moves|).answered
    ensures var db := At(moves, |moves|).db;
            var rows := set id | id in db.records && db.records[id].batchId == b;
            && db.batches[b].recordCount == |rows| + At(moves, |moves|).answered[b]
            && (db.batches[b].status == BatchCompleted ==>
                  db.batches[b].processedCount == |rows|
                  && forall id | id in db.records && db.records[id].batchId == b :: db.records[id].status != Pending)
  {
    hide Run, DbInv, AllOk;
    RunKeeps(moves[..|moves|]);
    CompletedIsSettled(At(moves, |moves|).db, b);
  }

  lemma CompletedIsSettled(db: Db, b: Id)
    requires DbInv(db) && b in db.batches
    ensures db.RowsOf(b) == set id | id in db.records && db.records[id].batchId == b
    ensures db.batches[b].status == BatchCompleted ==> Settled(db, b) && db.batches[b].processedCount == |db.RowsOf(b)|
  {
    hide RecordOk, IndexOk, KeysOk;
    assert BatchOk(db, b);
  }

  // --- rulings and reviews -----------------------------------------------------

  // A ruling exists exactly for the adjudicated records, and rules on the very
  // work-hour row the conflict was raised against.
  lemma RuledExactlyWhenAdjudicated(moves: seq<Move>, id: Id)
    requires id in At(moves, |moves|).db.records
    ensures var db := At(moves, |moves|).db;
            && (id in db.rulings <==> db.records[id].status == Adjudicated)
            && (id in db.rulings ==>
                  db.rulings[id].recordId == id && db.records[id].conflictId == Some(db.rulings[id].workHourId))
  {
    hide Run;
    RunKeeps(moves[..|moves|]);
    StoredIsLinked(At(moves, |moves|).db, id);
  }

  // Once made, a ruling is never replaced or rewritten.
  lemma RulingIsFinal(moves: seq<Move>, i: nat, j: nat, id: Id)
    requires i <= j <= |moves| && id in At(moves, i).db.rulings
    ensures id in At(moves, j).db.rulings && At(moves, j).db.rulings[id] == At(moves, i).db.rulings[id]
  {
    hide Run;
    RunEvolves(moves, i, j);
  }

  // A record has a manual row exactly when its manual_id names it, and a verified
  // record with a manual row was decided accept.
  lemma ManualRowIsTheNamedOne(moves: seq<Move>, id: Id)
    requires id in At(moves, |moves|).db.records
    ensures var db := At(moves, |moves|).db;
            && (forall m | m in db.manuals ::
                  db.manuals[m].recordId == id <==> db.records[id].manualId == Some(m))
            && (db.records[id].manualId.Some? ==> db.records[id].manualId.value in db.manuals)
            && (db.records[id].status == Verified && db.records[id].manualId.Some? ==>
                  db.manuals[db.records[id].manualId.value].decision == Some(Accept))
  {
    hide Run;
    RunKeeps(moves[..|moves|]);
    NamedExactly(At(moves, |moves|).db, id);
  }

  lemma NamedExactly(db: Db, id: Id)
    requires DbInv(db) && id in db.records
    ensures forall m | m in db.manuals :: db.manuals[m].recordId == id <==> db.records[id].manualId == Some(m)
    ensures db.records[id].manualId.Some? ==> db.records[id].manualId.value in db.manuals
    ensures db.records[id].status == Verified && db.records[id].manualId.Some? ==>
              db.manuals[db.records[id].manualId.value].decision == Some(Accept)
  {
    StoredIsLinked(db, id);
    assert KeysOk(db);
  }

  // The review decision is written at most once.
  lemma ReviewIsFinal(moves: seq<Move>, i: nat, j: nat, m: Id)
    requires i <= j <= |moves| && m in At(moves, i).db.manuals && At(moves, i).db.manuals[m].reviewed
    ensures m in At(moves, j).db.manuals && At(moves, j).db.manuals[m] == At(moves, i).db.manuals[m]
    ensures At(moves, i).db.manuals[m].decision.Some?
  {
    hide Run;
    RunEvolves(moves, i, j);
    RunKeeps(moves[..i]);
    ReviewedStable(At(moves, i).db, At(moves, j).db, m);
    assert ManualOk(At(moves, i).db.manuals[m]);
  }
}
