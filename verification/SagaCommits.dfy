// When the order updates of Provision and Compensate commit, in every run with
// crashes and outside writes: exactly when the order is as the call read it.
module SagaCommits {
  import opened Common
  import opened Status
  import opened SagaDb
  import opened SagaMachine

  // Equal contents or a larger version.
  predicate OrderEvolves(o: Order, o': Order) {
    o' == o || o.version < o'.version
  }

  lemma StatusEvolves(db: Db, src: DeploymentStatus, dst: DeploymentStatus, version: int)
    ensures OrderEvolves(db.order, Commit(db, db.UpdateStatus(src, dst, version)).order)
  {
  }

  lemma ExecEvolves(db: Db, order: Order, i: nat, version: int, fail: bool, freshId: Id)
    requires ExecAndMark(db, order, i, version, fail, freshId).Ok?
    ensures OrderEvolves(db.order, ExecAndMark(db, order, i, version, fail, freshId).value.order)
  {
  }

  lemma StepEvolves(db: Db, c: Call, o: Oracle)
    ensures OrderEvolves(db.order, StepCall(db, c, o).0.order)
  {
    hide Db.UpdateStatus, ExecAndMark, AssertTransition, deploymentTransitions;
    match c {
      case PrClaim(order) => StatusEvolves(db, order.status, Provisioning, order.version);
      case PrRetry(version) => StatusEvolves(db, Provisioning, PendingRetry, version);
      case PrActivate(version) => StatusEvolves(db, Provisioning, Active, version);
      case CoClaim(order) => StatusEvolves(db, order.status, Compensating, order.version);
      case CoAbort(version) => StatusEvolves(db, Compensating, Aborted, version);
      case PrExec(order, _, i, version) =>
        if ExecAndMark(db, order, i, version, o.fail, o.freshId).Ok? {
          ExecEvolves(db, order, i, version, o.fail, o.freshId);
        }
      case _ =>
    }
  }

  lemma MoveEvolves(s: Sys, m: Move)
    ensures OrderEvolves(s.db.order, Next(s, m).db.order)
  {
    hide StepCall;
    match m {
      case Go(o) => StepEvolves(s.db, s.call, o);
      case _ =>
    }
  }

  // What the call read of the order, and how it has evolved since.
  predicate OrderRead(db: Db, c: Call) {
    match c
    case PrClaim(order) => OrderEvolves(order, db.order)
    case CoClaim(order) => OrderEvolves(order, db.order)
    case PrList(order) => OrderEvolves(order, db.order)
    case PrNext(order, _, _) => OrderEvolves(order, db.order)
    case PrExec(order, _, _, _) => OrderEvolves(order, db.order)
    case _ => true
  }

  lemma ReadStays(db: Db, db': Db, c: Call)
    requires OrderEvolves(db.order, db'.order) && OrderRead(db, c)
    ensures OrderRead(db', c)
  {
  }

  lemma ReadAfterStep(db: Db, c: Call, o: Oracle)
    requires OrderRead(db, c)
    ensures OrderRead(db, StepCall(db, c, o).1)
  {
    hide ExecAndMark, AssertTransition, deploymentTransitions;
  }

  lemma MoveReads(s: Sys, m: Move)
    requires OrderRead(s.db, s.call)
    ensures OrderRead(Next(s, m).db, Next(s, m).call)
  {
    hide StepCall, OrderRead;
    MoveEvolves(s, m);
    match m {
      case Go(o) =>
        ReadAfterStep(s.db, s.call, o);
        ReadStays(s.db, Next(s, m).db, StepCall(s.db, s.call, o).1);
      case Start(_) => StartReadsNothing(s, m);
      case Crash => StartReadsNothing(s, m);
      case _ => ReadStays(s.db, Next(s, m).db, s.call);
    }
  }

  lemma StartReadsNothing(s: Sys, m: Move)
    requires (m.Start? || m.Crash?) && OrderRead(s.db, s.call)
    ensures OrderRead(Next(s, m).db, Next(s, m).call)
  {
  }

  lemma {:induction false} RunReads(devices: set<Id>, moves: seq<Move>)
    ensures var s := Run(Init(devices), moves); OrderRead(s.db, s.call)
  {
    hide Next, OrderRead;
    if moves == [] {
      InitReads(devices);
    } else {
      RunReads(devices, moves[..|moves| - 1]);
      MoveReads(Run(Init(devices), moves[..|moves| - 1]), moves[|moves| - 1]);
    }
  }

  lemma InitReads(devices: set<Id>)
    ensures OrderRead(Init(devices).db, Init(devices).call)
  {
  }

  // --- what commits ------------------------------------------------------------------

  lemma OneMore(devices: set<Id>, moves: seq<Move>, m: Move)
    ensures Run(Init(devices), moves + [m]) == Next(Run(Init(devices), moves), m)
  {
    hide Next;
    assert (moves + [m])[..|moves|] == moves;
  }

  // No two different contents of the order ever carry the same version.
  lemma {:induction false} VersionImpliesContents(devices: set<Id>, moves: seq<Move>, later: seq<Move>)
    ensures var order, order' := Run(Init(devices), moves).db.order, Run(Init(devices), moves + later).db.order;
            order.version <= order'.version && (order.version == order'.version ==> order == order')
  {
    hide Run, Next;
    if later == [] {
      assert moves + later == moves;
    } else {
      var front, m := later[..|later| - 1], later[|later| - 1];
      VersionImpliesContents(devices, moves, front);
      assert moves + later == moves + front + [m];
      OneMore(devices, moves + front, m);
      MoveEvolves(Run(Init(devices), moves + front), m);
    }
  }

  lemma StepTaken(devices: set<Id>, moves: seq<Move>, o: Oracle)
    ensures var s, s' := Run(Init(devices), moves), Run(Init(devices), moves + [Go(o)]);
            OrderRead(s.db, s.call) && (s'.db, s'.call) == StepCall(s.db, s.call, o)
  {
    hide Run, StepCall, OrderRead;
    RunReads(devices, moves);
    OneMore(devices, moves, Go(o));
  }

  // A call claims the order exactly when nobody wrote it since the call read it.
  // Otherwise the call returns a version conflict and nothing is written.
  lemma ClaimAtCommit(devices: set<Id>, moves: seq<Move>, o: Oracle)
    requires var s := Run(Init(devices), moves); s.call.PrClaim? || s.call.CoClaim?
    ensures var s, s' := Run(Init(devices), moves), Run(Init(devices), moves + [Go(o)]);
            var order := s.call.order;
            if s.db.order == order then
              && s'.db == s.db.(order := order.(
                   status := if s.call.PrClaim? then Provisioning else Compensating, version := order.version + 1))
              && s'.call == (if s.call.PrClaim? then PrReload else CoList)
            else s'.db == s.db && s'.call == Returned(Some(VersionConflict))
  {
    hide Run;
    StepTaken(devices, moves, o);
  }

  // The trial is created and linked, in one commit with its step's done mark,
  // exactly when nobody wrote the order since the call claimed and reloaded it: a
  // write from outside makes the step fail.
  lemma LinkAtCommit(devices: set<Id>, moves: seq<Move>, o: Oracle)
    requires var s := Run(Init(devices), moves);
             s.call.PrExec? && s.call.at == TRIAL && s.db.trials == [] && !o.fail
    ensures var s, s' := Run(Init(devices), moves), Run(Init(devices), moves + [Go(o)]);
            var order := s.call.order;
            if s.db.order == order then
              && s'.call == PrNext(order, s.call.steps, TRIAL + 1) && s'.db.trials == [o.freshId]
              && s'.db.order == order.(trialId := Some(o.freshId), version := order.version + 1)
              && |s'.db.steps| == STEPS && s'.db.steps[TRIAL].status == StepDone
            else s'.db == s.db && s'.call == PrFailed(TRIAL, s.call.version)
  {
    hide Run, RowsOk;
    StepTaken(devices, moves, o);
    RunKeeps(devices, moves);
  }

  // Going active, back to waiting, and aborted: each commits exactly when the
  // order still has the version the call reloaded.
  lemma LastUpdateAtCommit(devices: set<Id>, moves: seq<Move>, o: Oracle)
    requires var c := Run(Init(devices), moves).call; c.PrActivate? || c.PrRetry? || c.CoAbort?
    ensures var s, s' := Run(Init(devices), moves), Run(Init(devices), moves + [Go(o)]);
            var unwritten := s.db.order.version == s.call.version;
            && s'.db == (if !unwritten then s.db
                         else s.db.(order := s.db.order.(
                           status := if s.call.PrActivate? then Active else if s.call.PrRetry? then PendingRetry else Aborted,
                           version := s.call.version + 1)))
            && s'.call == (if s.call.PrRetry? then Returned(Some(Retryable))
                           else if s.call.CoAbort? || unwritten then Returned(None)
                           else Returned(Some(VersionConflict)))
  {
    hide Run, RowsOk;
    StepTaken(devices, moves, o);
    RunKeeps(devices, moves);
  }
}
