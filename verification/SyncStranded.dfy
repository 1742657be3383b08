// A review is two commits, so a record can be left behind its own decision. When
// that happens, how long it lasts, and that it does happen.
module SyncStranded {
  import opened Common
  import opened Status
  import opened SyncDb
  import opened SyncInv
  import opened SyncTx
  import opened Replay
  import opened SyncMachine
  import opened SyncSafety

  // The record waits, its manual row is reviewed, and nobody holds the row as it
  // is now to move it along.
  ghost predicate Stranded(s: Sys, id: Id) {
    && Waits(s.db, id)
    && forall w | w in s.workers :: !Moves(s.db, s.workers[w], id)
  }

  ghost predicate Waits(db: Db, id: Id) {
    && id in db.records && db.records[id].status == AwaitingReview
    && db.records[id].manualId.Some? && db.records[id].manualId.value in db.manuals
    && db.manuals[db.records[id].manualId.value].reviewed
  }

  // The call is about to move the record from its current version.
  ghost predicate Moves(db: Db, w: Worker, id: Id)
    requires id in db.records
  {
    w.MvRecord? && w.record.id == id && w.record.version == db.records[id].version
  }

  // --- only the mover verifies ------------------------------------------------------

  lemma StepOnWaiting(db: Db, now: int, w: Worker, o: Oracle, id: Id)
    requires DbInv(db) && WorkerOk(db, w) && id in db.records && db.records[id].status == AwaitingReview
    requires !Moves(db, w, id)
    ensures var db' := StepWorker(db, now, w, o).0;
            id in db'.records && db'.records[id].status in {AwaitingReview, Revoked}
  {
    hide DbInv, StepWorker, WorkerOk, Moves;
    match w {
      case PbResolve(_, _, _) => ResolveOnWaiting(db, now, w, o, id);
      case BfReplay(_, _, _) => ReplayOnWaiting(db, now, w, o, id);
      case MvRecord(_, _, _) => MoveOnWaiting(db, now, w, o, id);
      case ReApply(_) => MoveOnWaiting(db, now, w, o, id);
      case AdRule(_, _, _, _, _) => RuleOnWaiting(db, now, w, o, id);
      case CoApply(_, _) => CorrectOnWaiting(db, now, w, o, id);
      case PbClaim(_, _, _) => OtherWriteOnWaiting(db, now, w, o);
      case PbRelease(_, _) => OtherWriteOnWaiting(db, now, w, o);
      case PbFinish(_, _, _) => OtherWriteOnWaiting(db, now, w, o);
      case MvReview(_, _, _, _) => OtherWriteOnWaiting(db, now, w, o);
      case _ => ReadsOnly(db, now, w, o);
    }
  }

  lemma OtherWriteOnWaiting(db: Db, now: int, w: Worker, o: Oracle)
    requires w.PbClaim? || w.PbRelease? || w.PbFinish? || w.MvReview?
    ensures StepWorker(db, now, w, o).0.records == db.records
  {
  }

  lemma MoveOnWaiting(db: Db, now: int, w: Worker, o: Oracle, id: Id)
    requires WorkerOk(db, w) && id in db.records && db.records[id].status == AwaitingReview
    requires w.ReApply? || (w.MvRecord? && !Moves(db, w, id))
    ensures var db' := StepWorker(db, now, w, o).0;
            id in db'.records && db'.records[id].status in {AwaitingReview, Revoked}
  {
    hide Snap;
  }

  lemma RuleOnWaiting(db: Db, now: int, w: Worker, o: Oracle, id: Id)
    requires w.AdRule? && id in db.records && db.records[id].status == AwaitingReview
    ensures var db' := StepWorker(db, now, w, o).0;
            id in db'.records && db'.records[id].status == AwaitingReview
  {
    hide Db.RulingIdTaken, Db.HoursIdTaken;
  }

  lemma CorrectOnWaiting(db: Db, now: int, w: Worker, o: Oracle, id: Id)
    requires w.CoApply? && id in db.records && db.records[id].status == AwaitingReview
    ensures var db' := StepWorker(db, now, w, o).0;
            id in db'.records && db'.records[id].status == AwaitingReview
  {
  }

  lemma ResolveOnWaiting(db: Db, now: int, w: Worker, o: Oracle, id: Id)
    requires DbInv(db) && WorkerOk(db, w) && w.PbResolve?
    requires id in db.records && db.records[id].status == AwaitingReview
    ensures var db' := StepWorker(db, now, w, o).0;
            id in db'.records && db'.records[id].status == AwaitingReview
  {
    hide DbInv, Snap, ResolveAll, Outcome;
    if !o.fail && Supplies(o, |w.rows|, now) && ResolveAll(db, Work(w.rows, o)).Ok? {
      var work := Work(w.rows, o);
      WorkFacts(w.rows, o);
      ResolveAllGood(db, work);
      SettledRowKept(db, work, ResolveAll(db, work).value, id);
    }
  }

  // A resolving transaction rewrites pending rows only.
  lemma SettledRowKept(db: Db, work: seq<Resolution>, db': Db, id: Id)
    requires Outcome(db, work, db') && id in db.records && db.records[id].status != Pending
    ensures id in db'.records && db'.records[id] == db.records[id]
  {
    hide RuleIn, Recorded;
    if i :| 0 <= i < |work| && work[i].row.id == id {
      assert Decided(db, work[i], db');
    }
  }

  lemma ReplayOnWaiting(db: Db, now: int, w: Worker, o: Oracle, id: Id)
    requires DbInv(db) && w.BfReplay? && id in db.records && db.records[id].status == AwaitingReview
    ensures var db' := StepWorker(db, now, w, o).0;
            id in db'.records && db'.records[id].status == AwaitingReview
  {
    hide DbInv, Replayed, AllKnown, Backfill;
    var r := Backfill(db, w.orderId, w.batchId, w.rows);
    if r.Ok? {
      if AllKnown(db, w.rows) {
        KnownChangesNothing(db, w.orderId, w.batchId, w.rows);
      } else {
        BackfillReplays(db, w.orderId, w.batchId, w.rows);
        OldRowKept(db, w.orderId, w.batchId, w.rows, r.value, id);
      }
    }
  }

  // --- and no new mover comes ---------------------------------------------------------

  // A mover comes only from a review, and the manual row is reviewed already.
  lemma NoNewMover(db: Db, now: int, w: Worker, o: Oracle, id: Id)
    requires WorkerOk(db, w) && Waits(db, id) && !w.MvRecord?
    ensures var (db', w') := StepWorker(db, now, w, o); w'.MvRecord? ==> w'.record.id != id
  {
    hide StepWorker, WorkerOk;
    if w.MvReview? {
      ReviewedAlready(db, now, w, o, id);
    } else {
      MoverFromReview(db, now, w, o);
    }
  }

  lemma MoverFromReview(db: Db, now: int, w: Worker, o: Oracle)
    requires !w.MvRecord? && !w.MvReview?
    ensures !StepWorker(db, now, w, o).1.MvRecord?
  {
    hide ResolveAll, Backfill, Lists, Supplies, Adjudicate, Correct, ReplayOrder.SortStable, AssertTransition;
  }

  lemma ReviewedAlready(db: Db, now: int, w: Worker, o: Oracle, id: Id)
    requires WorkerOk(db, w) && Waits(db, id) && w.MvReview?
    ensures var (db', w') := StepWorker(db, now, w, o); w'.MvRecord? ==> w'.record.id != id
  {
    if w.record.id == id {
      assert RecordEvolves(w.record, db.records[id]);
      assert ManualEvolves(w.manual, db.manuals[w.manual.id]);
    }
  }

  // A mover that is behind stays behind.
  lemma BehindStaysBehind(db: Db, db': Db, w: Worker, id: Id)
    requires WorkerOk(db, w) && id in db.records && id in db'.records && !Moves(db, w, id)
    requires RecordEvolves(db.records[id], db'.records[id])
    ensures !Moves(db', w, id)
  {
    if w.MvRecord? && w.record.id == id {
      assert RecordEvolves(w.record, db.records[id]);
    }
  }

  lemma StillWaits(db: Db, db': Db, id: Id)
    requires Waits(db, id) && Evolves(db, db') && id in db'.records && db'.records[id].status == AwaitingReview
    ensures Waits(db', id)
  {
    hide RecordsEvolve;
    var m := db.records[id].manualId.value;
    assert RecordEvolves(db.records[id], db'.records[id]) by { RecordsEvolveAt(db, db', id); }
    ReviewedStable(db, db', m);
  }

  lemma RecordsEvolveAt(db: Db, db': Db, id: Id)
    requires Evolves(db, db') && id in db.records
    ensures id in db'.records && RecordEvolves(db.records[id], db'.records[id])
  {
  }

  // --- every move ------------------------------------------------------------------------

  lemma StrandedStep(s: Sys, m: Move, id: Id)
    requires Inv(s) && Stranded(s, id)
    requires Evolves(s.db, Next(s, m).db)
    ensures id in Next(s, m).db.records
    ensures Next(s, m).db.records[id].status in {AwaitingReview, Revoked}
    ensures Next(s, m).db.records[id].status == AwaitingReview ==> Stranded(Next(s, m), id)
  {
    hide DbInv, WorkerOk, Evolves, StepWorker, NoteAnswered, Waits, Moves, Surroundings, CountsOk;
    var s' := Next(s, m);
    WaitsGives(s.db, id);
    RecordsEvolveAt(s.db, s'.db, id);
    match m {
      case StepOf(w, o) =>
        if w in s.workers {
          StepOnWaiting(s.db, s.now, s.workers[w], o, id);
        }
      case _ => SurroundingsOnWaiting(s, m);
    }
    if s'.db.records[id].status == AwaitingReview {
      StillWaits(s.db, s'.db, id);
      forall v | v in s'.workers
        ensures !Moves(s'.db, s'.workers[v], id)
      {
        MoverAfter(s, m, id, v);
      }
    }
  }

  lemma WaitsGives(db: Db, id: Id)
    requires Waits(db, id)
    ensures id in db.records && db.records[id].status == AwaitingReview
  {
  }

  // Only workers' steps write records.
  lemma SurroundingsOnWaiting(s: Sys, m: Move)
    requires !m.StepOf?
    ensures Next(s, m).db.records == s.db.records
  {
    hide Db.LeaseExpired, Db.HoursIdTaken;
  }

  lemma MoverAfter(s: Sys, m: Move, id: Id, v: nat)
    requires Inv(s) && Stranded(s, id) && v in Next(s, m).workers
    requires id in Next(s, m).db.records && RecordEvolves(s.db.records[id], Next(s, m).db.records[id])
    ensures !Moves(Next(s, m).db, Next(s, m).workers[v], id)
  {
    hide DbInv, WorkerOk, StepWorker, NoteAnswered, Waits, Moves, Surroundings, CountsOk, RecordEvolves;
    WaitsGives(s.db, id);
    if v in s.workers {
      BehindStaysBehind(s.db, Next(s, m).db, s.workers[v], id);
    }
    if m.StepOf? && m.worker == v && v in s.workers {
      if s.workers[v].MvRecord? {
        MoverReturns(s.db, s.now, s.workers[v], m.oracle);
        NotAMover(Next(s, m).db, Next(s, m).workers[v], id);
      } else {
        NoNewMover(s.db, s.now, s.workers[v], m.oracle, id);
        NotTheMover(Next(s, m).db, Next(s, m).workers[v], id);
      }
    } else if v !in s.workers {
      NotAMover(Next(s, m).db, Next(s, m).workers[v], id);
    }
  }

  lemma MoverReturns(db: Db, now: int, w: Worker, o: Oracle)
    requires w.MvRecord?
    ensures StepWorker(db, now, w, o).1.Done?
  {
  }

  lemma NotAMover(db: Db, w: Worker, id: Id)
    requires id in db.records && !w.MvRecord?
    ensures !Moves(db, w, id)
  {
  }

  lemma NotTheMover(db: Db, w: Worker, id: Id)
    requires id in db.records && (w.MvRecord? ==> w.record.id != id)
    ensures !Moves(db, w, id)
  {
  }

  // A record whose decision is written and which no call is about to move from
  // its current version waits, whatever runs later, until it is revoked: later
  // calls of ManualVerify find the row reviewed and answer without moving it.
  lemma {:induction false} WaitsUntilRevoked(moves: seq<Move>, later: seq<Move>, id: Id)
    requires Stranded(Run(Init(), moves), id)
    ensures var s' := Run(Init(), moves + later);
            id in s'.db.records && (Stranded(s', id) || s'.db.records[id].status == Revoked)
  {
    hide Run, Next, Inv, Stranded, Evolves, MovesAlongEdges;
    if later == [] {
      assert moves + later == moves;
      StrandedGives(Run(Init(), moves), id);
    } else {
      var all, n := moves + later, |moves| + |later| - 1;
      assert all[..n] == moves + later[..|later| - 1] && all[..n + 1] == all;
      WaitsUntilRevoked(moves, later[..|later| - 1], id);
      RunStep(all, n);
      var s := Run(Init(), all[..n]);
      if Stranded(s, id) {
        StrandedStep(s, all[n], id);
      } else {
        RevokedStays(s.db, Next(s, all[n]).db, id);
      }
    }
  }

  lemma StrandedGives(s: Sys, id: Id)
    requires Stranded(s, id)
    ensures id in s.db.records
  {
  }

  lemma RevokedStays(db: Db, db': Db, id: Id)
    requires Evolves(db, db') && MovesAlongEdges(db, db') && id in db.records && db.records[id].status == Revoked
    ensures id in db'.records && db'.records[id].status == Revoked
  {
    hide Evolves;
  }

  // A review step that wrote the decision leaves the record stranded when its
  // call crashes before the move, unless another call is about to make it.
  lemma CrashStrandsExactly(moves: seq<Move>, w: nat)
    requires w in Run(Init(), moves).workers && Run(Init(), moves).workers[w].MvRecord?
    requires var s := Run(Init(), moves); var r := s.workers[w].record;
             r.id in s.db.records && s.db.records[r.id].status == AwaitingReview
    ensures var s := Run(Init(), moves);
            var id := s.workers[w].record.id;
            Stranded(Run(Init(), moves + [Crash(w)]), id)
            <==> forall v | v in s.workers && v != w :: !Moves(s.db, s.workers[v], id)
  {
    hide Run, DbInv, CountsOk, Moves;
    RunKeeps(moves);
    RunEnds(moves, Crash(w));
    var s := Run(Init(), moves);
    var s' := Run(Init(), moves + [Crash(w)]);
    assert s' == s.(workers := s.workers - {w});
    MoverWaits(s.db, s.workers[w]);
    if Stranded(s', s.workers[w].record.id) {
      forall v | v in s.workers && v != w
        ensures !Moves(s.db, s.workers[v], s.workers[w].record.id)
      {
        assert v in s'.workers;
      }
    }
  }

  // So does losing the race for the record: a move from a version that is gone.
  lemma LostRaceStrandsExactly(moves: seq<Move>, w: nat, o: Oracle)
    requires w in Run(Init(), moves).workers && Run(Init(), moves).workers[w].MvRecord?
    requires var s := Run(Init(), moves); var r := s.workers[w].record;
             r.id in s.db.records && s.db.records[r.id].status == AwaitingReview && s.db.records[r.id].version != r.version
    ensures var s := Run(Init(), moves);
            var id := s.workers[w].record.id;
            Stranded(Run(Init(), moves + [StepOf(w, o)]), id)
            <==> forall v | v in s.workers && v != w :: !Moves(s.db, s.workers[v], id)
  {
    hide Run, DbInv, CountsOk, Moves, NoteAnswered, StepWorker;
    RunKeeps(moves);
    RunEnds(moves, StepOf(w, o));
    var s := Run(Init(), moves);
    var s' := Run(Init(), moves + [StepOf(w, o)]);
    var id := s.workers[w].record.id;
    LostMove(s.db, s.now, s.workers[w], o);
    MoverWaits(s.db, s.workers[w]);
    NotAMover(s.db, s'.workers[w], id);
    if Stranded(s', id) {
      forall v | v in s.workers && v != w
        ensures !Moves(s.db, s.workers[v], id)
      {
        assert s'.workers[v] == s.workers[v];
      }
    }
  }

  lemma LostMove(db: Db, now: int, w: Worker, o: Oracle)
    requires w.MvRecord? && w.record.id in db.records && db.records[w.record.id].version != w.record.version
    ensures StepWorker(db, now, w, o) == (db, Done(Some(VersionConflict)))
  {
  }

  lemma MoverWaits(db: Db, w: Worker)
    requires WorkerOk(db, w) && w.MvRecord? && db.records[w.record.id].status == AwaitingReview
    ensures Waits(db, w.record.id)
  {
  }

  lemma RunEnds(moves: seq<Move>, m: Move)
    ensures Run(Init(), moves + [m]) == Next(Run(Init(), moves), m)
  {
    hide Next;
    assert (moves + [m])[..|moves|] == moves;
  }
}
