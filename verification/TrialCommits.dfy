// When the single-row updates of Accept, Convert and Escalate commit, in any
// interleaved run: exactly when the trial is as the call read it.
module TrialCommits {
  import opened Common
  import opened Status
  import opened TrialDb
  import opened TrialMachine

  // Equal contents or a larger version.
  predicate TrialEvolves(t: Trial, t': Trial) {
    t'.id == t.id && (t' == t || t.version < t'.version)
  }

  ghost predicate TrialsEvolve(db: Db, db': Db) {
    forall id | id in db.trials :: id in db'.trials && TrialEvolves(db.trials[id], db'.trials[id])
  }

  lemma Unwritten(db: Db)
    ensures TrialsEvolve(db, db)
  {
  }

  lemma StatusEvolves(db: Db, id: Id, src: TrialStatus, dst: TrialStatus, version: int)
    requires db.UpdateTrialStatus(id, src, dst, version).Ok?
    ensures TrialsEvolve(db, db.UpdateTrialStatus(id, src, dst, version).value)
  {
  }

  lemma AcceptEvolves(db: Db, id: Id, actor: Id, version: int)
    requires db.SetAccepted(id, actor, version).Ok?
    ensures TrialsEvolve(db, db.SetAccepted(id, actor, version).value)
  {
  }

  lemma StepEvolves(db: Db, now: int, writes: map<Id, nat>, w: Worker, order: seq<Id>)
    ensures TrialsEvolve(db, StepWorker(db, now, writes, w, order).0)
  {
    hide TrialsEvolve, Db.UpdateTrialStatus, Db.SetAccepted, Lists;
    Unwritten(db);
    match w {
      case CdNext(loop) =>
        if loop.at < |loop.rows| {
          var t := loop.rows[loop.at];
          if db.UpdateTrialStatus(t.id, TrialActive, TrialOverdue, t.version).Ok? {
            StatusEvolves(db, t.id, TrialActive, TrialOverdue, t.version);
          }
        }
      case EsMarkOverdue(t, _, _) =>
        if db.UpdateTrialStatus(t.id, TrialActive, TrialOverdue, t.version).Ok? {
          StatusEvolves(db, t.id, TrialActive, TrialOverdue, t.version);
        }
      case EsMark(t, _, _) =>
        if db.UpdateTrialStatus(t.id, t.status, TrialEscalated, t.version).Ok? {
          StatusEvolves(db, t.id, t.status, TrialEscalated, t.version);
        }
      case AcSet(t, actor) =>
        if db.SetAccepted(t.id, actor, t.version).Ok? {
          AcceptEvolves(db, t.id, actor, t.version);
        }
      case CvMark(t) =>
        if db.UpdateTrialStatus(t.id, t.status, TrialConverted, t.version).Ok? {
          StatusEvolves(db, t.id, t.status, TrialConverted, t.version);
        }
      case EsTransfer(_, _, _) => TransferLeavesTrials(db, now, writes, w, order);
      case CvTransfer(_) => TransferLeavesTrials(db, now, writes, w, order);
      case _ => OthersRead(db, now, writes, w, order);
    }
  }

  lemma TransferLeavesTrials(db: Db, now: int, writes: map<Id, nat>, w: Worker, order: seq<Id>)
    requires w.EsTransfer? || w.CvTransfer?
    ensures TrialsEvolve(db, StepWorker(db, now, writes, w, order).0)
  {
  }

  lemma OthersRead(db: Db, now: int, writes: map<Id, nat>, w: Worker, order: seq<Id>)
    requires !w.CdNext? && !w.EsMarkOverdue? && !w.EsMark? && !w.AcSet? && !w.CvMark? && !w.EsTransfer? && !w.CvTransfer?
    ensures StepWorker(db, now, writes, w, order).0 == db
  {
    hide Lists;
  }

  // --- snapshots ------------------------------------------------------------------

  ghost predicate TrialRead(db: Db, t: Trial) {
    t.id in db.trials && TrialEvolves(t, db.trials[t.id])
  }

  ghost predicate ReadOk(db: Db, w: Worker) {
    match w
    case EsMark(t, _, _) => TrialRead(db, t)
    case AcSet(t, _) => TrialRead(db, t)
    case CvMark(t) => TrialRead(db, t)
    case EsOrder(t, _) => TrialRead(db, t)
    case EsMarkOverdue(t, _, _) => TrialRead(db, t)
    case _ => true
  }

  ghost predicate AllRead(s: Sys) {
    && (forall id | id in s.db.trials :: s.db.trials[id].id == id)
    && forall w | w in s.workers :: ReadOk(s.db, s.workers[w])
  }

  lemma ReadStays(db: Db, db': Db, w: Worker)
    requires TrialsEvolve(db, db') && ReadOk(db, w)
    ensures ReadOk(db', w)
  {
  }

  lemma ReadAfterStep(db: Db, now: int, writes: map<Id, nat>, w: Worker, order: seq<Id>)
    requires ReadOk(db, w) && forall id | id in db.trials :: db.trials[id].id == id
    ensures ReadOk(db, StepWorker(db, now, writes, w, order).1)
  {
    hide AssertTransition, Lists;
  }

  lemma MoveEvolves(s: Sys, m: Move)
    ensures TrialsEvolve(s.db, Next(s, m).db)
  {
    hide StepWorker, TrialsEvolve;
    Unwritten(s.db);
    match m {
      case StepOf(w, order) =>
        if w in s.workers {
          StepEvolves(s.db, s.now, s.writes, s.workers[w], order);
        }
      case _ => AroundEvolves(s, m);
    }
  }

  lemma AroundEvolves(s: Sys, m: Move)
    requires !m.StepOf?
    ensures TrialsEvolve(s.db, Next(s, m).db)
  {
  }

  lemma IdsStay(s: Sys, m: Move)
    requires forall id | id in s.db.trials :: s.db.trials[id].id == id
    ensures forall id | id in Next(s, m).db.trials :: Next(s, m).db.trials[id].id == id
  {
    hide StepWorker, TrialEvolves;
    MoveEvolves(s, m);
    TrialKeys(s, m);
    forall id | id in s.db.trials
      ensures Next(s, m).db.trials[id].id == id
    {
      EvolvesKeepsId(s.db, Next(s, m).db, id);
    }
  }

  lemma EvolvesKeepsId(db: Db, db': Db, id: Id)
    requires TrialsEvolve(db, db') && id in db.trials
    ensures id in db'.trials && db'.trials[id].id == db.trials[id].id
  {
  }

  // A trial appears only by being added.
  lemma TrialKeys(s: Sys, m: Move)
    ensures forall id | id in Next(s, m).db.trials && id !in s.db.trials :: Next(s, m).db.trials[id].id == id
  {
    match m {
      case StepOf(w, order) =>
        if w in s.workers {
          StepAddsNone(s.db, s.now, s.writes, s.workers[w], order);
        }
      case _ =>
    }
  }

  lemma StepAddsNone(db: Db, now: int, writes: map<Id, nat>, w: Worker, order: seq<Id>)
    ensures StepWorker(db, now, writes, w, order).0.trials.Keys == db.trials.Keys
  {
    hide Lists;
    match w {
      case CdNext(loop) =>
      case EsMarkOverdue(_, _, _) =>
      case EsMark(_, _, _) =>
      case AcSet(_, _) =>
      case CvMark(_) =>
      case EsTransfer(_, _, _) =>
      case CvTransfer(_) =>
      case _ => OthersRead(db, now, writes, w, order);
    }
  }

  lemma MoveReads(s: Sys, m: Move)
    requires AllRead(s)
    ensures AllRead(Next(s, m))
  {
    hide StepWorker, TrialsEvolve, ReadOk;
    MoveEvolves(s, m);
    IdsStay(s, m);
    forall w | w in Next(s, m).workers
      ensures ReadOk(Next(s, m).db, Next(s, m).workers[w])
    {
      if w in s.workers {
        if m.StepOf? && m.worker == w {
          ReadAfterStep(s.db, s.now, s.writes, s.workers[w], m.order);
          ReadStays(s.db, Next(s, m).db, StepWorker(s.db, s.now, s.writes, s.workers[w], m.order).1);
        } else {
          ReadStays(s.db, Next(s, m).db, s.workers[w]);
        }
      } else {
        SpawnReadsNothing(s, m, w);
      }
    }
  }

  lemma SpawnReadsNothing(s: Sys, m: Move, w: nat)
    requires w !in s.workers && w in Next(s, m).workers
    ensures ReadOk(Next(s, m).db, Next(s, m).workers[w])
  {
  }

  lemma {:induction false} RunReads(moves: seq<Move>)
    ensures AllRead(Run(Init(), moves))
  {
    hide Next, AllRead;
    if moves == [] {
      InitReads();
    } else {
      RunReads(moves[..|moves| - 1]);
      MoveReads(Run(Init(), moves[..|moves| - 1]), moves[|moves| - 1]);
    }
  }

  lemma InitReads()
    ensures AllRead(Init())
  {
  }

  // --- what commits --------------------------------------------------------------------

  // No two different contents of a trial ever carry the same version.
  lemma {:induction false} VersionImpliesContents(moves: seq<Move>, later: seq<Move>, id: Id)
    requires id in Run(Init(), moves).db.trials
    ensures var t, db := Run(Init(), moves).db.trials[id], Run(Init(), moves + later).db;
            id in db.trials && t.version <= db.trials[id].version
            && (t.version == db.trials[id].version ==> t == db.trials[id])
  {
    hide Run, Next;
    if later == [] {
      assert moves + later == moves;
    } else {
      var front, m := later[..|later| - 1], later[|later| - 1];
      VersionImpliesContents(moves, front, id);
      assert moves + later == moves + front + [m];
      OneMore(moves + front, m);
      MoveEvolves(Run(Init(), moves + front), m);
    }
  }

  lemma OneMore(moves: seq<Move>, m: Move)
    ensures Run(Init(), moves + [m]) == Next(Run(Init(), moves), m)
  {
    hide Next;
    assert (moves + [m])[..|moves|] == moves;
  }

  lemma StepTaken(moves: seq<Move>, w: nat, order: seq<Id>)
    requires w in Run(Init(), moves).workers
    ensures var s, s' := Run(Init(), moves), Run(Init(), moves + [StepOf(w, order)]);
            && w in s'.workers && ReadOk(s.db, s.workers[w])
            && (s'.db, s'.workers[w]) == StepWorker(s.db, s.now, s.writes, s.workers[w], order)
  {
    hide Run, StepWorker, ReadOk;
    RunReads(moves);
    OneMore(moves, StepOf(w, order));
  }

  // In every run: an acceptance commits exactly when the trial is as the call read
  // it and still running or overdue. Otherwise nothing is written.
  lemma AcceptanceAtCommit(moves: seq<Move>, w: nat, order: seq<Id>)
    requires w in Run(Init(), moves).workers && Run(Init(), moves).workers[w].AcSet?
    ensures var s, s' := Run(Init(), moves), Run(Init(), moves + [StepOf(w, order)]);
            var call, t := s.workers[w], s.workers[w].trial;
            && t.id in s.db.trials && w in s'.workers
            && (s'.workers[w] == Returned(None, true)
                <==> s.db.trials[t.id] == t && (t.status == TrialActive || t.status == TrialOverdue))
            && if w in s'.workers && s'.workers[w] == Returned(None, true) then
                 s'.db == s.db.(trials := s.db.trials[t.id := t.(
                   status := TrialAccepted, acceptedBy := Some(call.actor), version := t.version + 1)])
               else s'.db == s.db && s'.workers[w] == Returned(Some(VersionConflict), false)
  {
    hide Run;
    StepTaken(moves, w, order);
  }

  // So does a conversion, which then goes on to hand the order over.
  lemma ConversionAtCommit(moves: seq<Move>, w: nat, order: seq<Id>)
    requires w in Run(Init(), moves).workers && Run(Init(), moves).workers[w].CvMark?
    ensures var s, s' := Run(Init(), moves), Run(Init(), moves + [StepOf(w, order)]);
            var t := s.workers[w].trial;
            && t.id in s.db.trials && w in s'.workers
            && (s'.workers[w].CvOrder? <==> s.db.trials[t.id] == t)
            && if s.db.trials[t.id] == t then
                 s'.db == s.db.(trials := s.db.trials[t.id := t.(status := TrialConverted, version := t.version + 1)])
                 && s'.workers[w] == CvOrder(t.orderId)
               else s'.db == s.db && s'.workers[w] == Returned(Some(VersionConflict), false)
  {
    hide Run;
    StepTaken(moves, w, order);
  }

  // And an escalation.
  lemma EscalationAtCommit(moves: seq<Move>, w: nat, order: seq<Id>)
    requires w in Run(Init(), moves).workers && Run(Init(), moves).workers[w].EsMark?
    ensures var s, s' := Run(Init(), moves), Run(Init(), moves + [StepOf(w, order)]);
            var t := s.workers[w].trial;
            && t.id in s.db.trials && w in s'.workers
            && (s'.workers[w].EsTransfer? <==> s.db.trials[t.id] == t)
            && if s.db.trials[t.id] == t then
                 s'.db == s.db.(trials := s.db.trials[t.id := t.(status := TrialEscalated, version := t.version + 1)])
               else s'.db == s.db
  {
    hide Run;
    StepTaken(moves, w, order);
  }
}
