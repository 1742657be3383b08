// Which steps crashes strand, exactly, and that the order goes active over them.
module SagaCrashes {
  import opened Common
  import opened Status
  import opened SagaDb
  import opened SagaMachine
  import SagaCalm
  import SagaRecovery
  import SagaSafety
  import SagaService

  // A call is executing step k, or has rolled it back and not marked it yet.
  predicate Executing(c: Call, k: nat) {
    (c.PrExec? || c.PrFailed?) && c.at == k
  }

  // Some crash of the run hit a call that was executing step k.
  ghost predicate WasInterrupted(devices: set<Id>, moves: seq<Move>, k: nat) {
    moves != []
    && (WasInterrupted(devices, moves[..|moves| - 1], k)
        || (moves[|moves| - 1] == Crash && Executing(Run(Init(devices), moves[..|moves| - 1]).call, k)))
  }

  // --- processing steps are those executing or interrupted ----------------------------

  ghost predicate Accounted(s: Sys, k: nat, interrupted: bool) {
    && k < STEPS && |s.db.steps| == STEPS
    && (s.db.steps[k].status == StepProcessing <==> interrupted || Executing(s.call, k))
    && !(interrupted && Executing(s.call, k))
  }

  lemma FreeStep(s: Sys, o: Oracle, k: nat)
    requires CallOk(s.db, s.call) && |s.db.steps| == STEPS && k < STEPS
    requires s.db.steps[k].status != StepProcessing && !Executing(s.call, k)
    ensures var (db', c') := StepCall(s.db, s.call, o);
            |db'.steps| == STEPS && (db'.steps[k].status == StepProcessing <==> Executing(c', k))
  {
    hide AssertTransition, deploymentTransitions, StepCall;
    if s.call.PrNext? {
      FreeStepWalked(s, o, k);
    } else if s.call.PrExec? {
      FreeStepExecuted(s, o, k);
    } else if s.call.PrFailed? || s.call.CoMark? {
      FreeStepMarked(s, o, k);
    } else {
      FreeStepElsewhere(s, o, k);
    }
  }

  lemma FreeStepWalked(s: Sys, o: Oracle, k: nat)
    requires CallOk(s.db, s.call) && |s.db.steps| == STEPS && k < STEPS && s.call.PrNext?
    requires s.db.steps[k].status != StepProcessing
    ensures var (db', c') := StepCall(s.db, s.call, o);
            |db'.steps| == STEPS && (db'.steps[k].status == StepProcessing <==> Executing(c', k))
  {
  }

  lemma FreeStepExecuted(s: Sys, o: Oracle, k: nat)
    requires CallOk(s.db, s.call) && |s.db.steps| == STEPS && k < STEPS && s.call.PrExec? && s.call.at != k
    requires s.db.steps[k].status != StepProcessing
    ensures var (db', c') := StepCall(s.db, s.call, o);
            |db'.steps| == STEPS && (db'.steps[k].status == StepProcessing <==> Executing(c', k))
  {
    hide ExecAndMark;
    if ExecAndMark(s.db, s.call.order, s.call.at, s.call.version, o.fail, o.freshId).Ok? {
      SagaSafety.ExecTouchesOne(s.db, s.call.order, s.call.at, s.call.version, o);
    }
  }

  lemma FreeStepMarked(s: Sys, o: Oracle, k: nat)
    requires CallOk(s.db, s.call) && |s.db.steps| == STEPS && k < STEPS && (s.call.PrFailed? || s.call.CoMark?)
    requires s.db.steps[k].status != StepProcessing
    ensures var (db', c') := StepCall(s.db, s.call, o);
            |db'.steps| == STEPS && (db'.steps[k].status == StepProcessing <==> Executing(c', k))
  {
  }

  lemma FreeStepElsewhere(s: Sys, o: Oracle, k: nat)
    requires !s.call.PrNext? && !s.call.PrExec? && !s.call.PrFailed? && !s.call.CoMark?
    ensures var (db', c') := StepCall(s.db, s.call, o); db'.steps == s.db.steps && !Executing(c', k)
  {
    hide AssertTransition, deploymentTransitions;
  }

  lemma ExecutingStep(s: Sys, o: Oracle, k: nat)
    requires CallOk(s.db, s.call) && |s.db.steps| == STEPS && k < STEPS && Executing(s.call, k)
    ensures var (db', c') := StepCall(s.db, s.call, o);
            |db'.steps| == STEPS && (db'.steps[k].status == StepProcessing <==> Executing(c', k))
  {
    hide ExecStep;
    if s.call.PrExec? && ExecStep(s.db, s.call.order, k, o.fail, o.freshId).Ok? {
      EffectSteps(s.db, s.call.order, k, o.fail, o.freshId);
    }
  }

  lemma EffectSteps(db: Db, order: Order, i: nat, fail: bool, freshId: Id)
    requires ExecStep(db, order, i, fail, freshId).Ok?
    ensures ExecStep(db, order, i, fail, freshId).value.steps == db.steps
  {
  }

  lemma StaysAccounted(s: Sys, m: Move, k: nat, interrupted: bool)
    requires Inv(s) && Accounted(s, k, interrupted)
    ensures Accounted(Next(s, m), k, interrupted || (m == Crash && Executing(s.call, k)))
  {
    hide RowsOk, StepCall, CallOk;
    if interrupted {
      SagaSafety.StuckStays(s, m, k);
    } else if m.Go? {
      if Executing(s.call, k) {
        ExecutingStep(s, m.oracle, k);
      } else {
        FreeStep(s, m.oracle, k);
      }
    }
  }

  lemma {:induction false} AccountedInRuns(devices: set<Id>, moves: seq<Move>, k: nat)
    requires k < STEPS
    ensures Accounted(Run(Init(devices), moves), k, WasInterrupted(devices, moves, k))
  {
    hide Next, Inv, SourceOk, Accounted;
    if moves == [] {
      AccountedAtFirst(devices, k);
    } else {
      var front := moves[..|moves| - 1];
      AccountedInRuns(devices, front, k);
      RunKeeps(devices, front);
      StaysAccounted(Run(Init(devices), front), moves[|moves| - 1], k, WasInterrupted(devices, front, k));
    }
  }

  lemma AccountedAtFirst(devices: set<Id>, k: nat)
    requires k < STEPS
    ensures Accounted(Init(devices), k, false)
  {
  }

  // In every run a step is processing exactly when a call is executing it now,
  // or a crash once hit a call that was.
  lemma ProcessingExactly(devices: set<Id>, moves: seq<Move>, k: nat)
    requires k < STEPS
    ensures var s := Run(Init(devices), moves);
            && |s.db.steps| == STEPS
            && (s.db.steps[k].status == StepProcessing <==> WasInterrupted(devices, moves, k) || Executing(s.call, k))
  {
    hide Run, WasInterrupted;
    AccountedInRuns(devices, moves, k);
  }

  // So an active order has all five steps done exactly when no crash of the run
  // interrupted the execution of any of them.
  lemma ActiveIsCompleteExactly(devices: set<Id>, moves: seq<Move>)
    requires Run(Init(devices), moves).db.order.status == Active
    ensures var s := Run(Init(devices), moves);
            && |s.db.steps| == STEPS
            && (SagaCalm.AllAre(s.db.steps, StepDone) <==> forall k: nat | k < STEPS :: !WasInterrupted(devices, moves, k))
  {
    hide Run, WasInterrupted, RowsOk, SourceOk;
    RunKeeps(devices, moves);
    var s := Run(Init(devices), moves);
    FiveSteps(s.db, s.ran);
    if forall k: nat | k < STEPS :: !WasInterrupted(devices, moves, k) {
      forall k | 0 <= k < STEPS
        ensures s.db.steps[k].status == StepDone
      {
        ActiveStepExactly(devices, moves, k);
        assert !WasInterrupted(devices, moves, k);
      }
    } else {
      var k: nat :| k < STEPS && WasInterrupted(devices, moves, k);
      ActiveStepExactly(devices, moves, k);
    }
  }

  lemma ActiveStepExactly(devices: set<Id>, moves: seq<Move>, k: nat)
    requires k < STEPS && Run(Init(devices), moves).db.order.status == Active
    ensures var db := Run(Init(devices), moves).db;
            |db.steps| == STEPS && (db.steps[k].status == StepDone <==> !WasInterrupted(devices, moves, k))
  {
    hide Run, WasInterrupted, RowsOk, SourceOk;
    RunKeeps(devices, moves);
    ProcessingExactly(devices, moves, k);
    SagaSafety.ActiveStepsAreClaimed(devices, moves, k);
    assert !Executing(Run(Init(devices), moves).call, k);
  }

  // --- and the order goes active over them -----------------------------------------------

  // The planned devices are bound until compensation.
  lemma {:induction false} DevicesStayBound(devices: set<Id>, moves: seq<Move>)
    ensures var db := Run(Init(devices), moves).db;
            db.order.status in {Compensating, Aborted} || db.devices == devices
  {
    hide Next, Inv, SourceOk;
    if moves != [] {
      var front := moves[..|moves| - 1];
      DevicesStayBound(devices, front);
      RunKeeps(devices, front);
      BoundStep(Run(Init(devices), front), moves[|moves| - 1]);
    }
  }

  lemma BoundStep(s: Sys, m: Move)
    requires Inv(s) && SourceOk(s.call)
    ensures s.db.order.status in {Compensating, Aborted} ==> Next(s, m).db.order.status in {Compensating, Aborted}
    ensures Next(s, m).db.order.status in {Compensating, Aborted} || Next(s, m).db.devices == s.db.devices
  {
    hide RowsOk, AssertTransition, deploymentTransitions, ExecAndMark;
    if m.Go? && s.call.PrExec? && ExecAndMark(s.db, s.call.order, s.call.at, s.call.version, m.oracle.fail, m.oracle.freshId).Ok? {
      ExecKeepsBound(s.db, s.call.order, s.call.at, s.call.version, m.oracle);
    }
  }

  lemma ExecKeepsBound(db: Db, order: Order, i: nat, version: int, o: Oracle)
    requires ExecAndMark(db, order, i, version, o.fail, o.freshId).Ok?
    ensures var db' := ExecAndMark(db, order, i, version, o.fail, o.freshId).value;
            db'.devices == db.devices && db'.order.status == db.order.status
  {
  }

  // A Provision nobody interrupts and whose steps all find their references.
  ghost predicate Smooth(s: Sys) {
    && Inv(s) && SourceOk(s.call) && SagaRecovery.LoneOk(s) && s.db.devices != {}
    && match s.call
       case PrStart => true
       case PrClaim(_) => true
       case PrReload => true
       case PrList(order) => order == s.db.order
       case PrNext(order, _, _) => s.db.trials == [] ==> order.version == s.db.order.version
       case PrExec(order, _, _, _) => s.db.trials == [] ==> order.version == s.db.order.version
       case PrRefresh => true
       case PrActivate(_) => true
       case Returned(failure) => failure == None
       case _ => false
  }

  // Steps left to its return.
  function Left(c: Call): nat {
    match c
    case PrStart => 17
    case PrClaim(_) => 16
    case PrReload => 15
    case PrList(_) => 14
    case PrNext(_, _, i) => if i <= STEPS then 2 * (STEPS - i) + 3 else 3
    case PrExec(_, _, i, _) => if i < STEPS then 2 * (STEPS - i) + 2 else 3
    case PrRefresh => 2
    case PrActivate(_) => 1
    case _ => 0
  }

  lemma SmoothStep(s: Sys, freshId: Id)
    requires Smooth(s) && !s.call.Returned?
    ensures Smooth(Next(s, Go(Oracle(false, freshId)))) && Left(Next(s, Go(Oracle(false, freshId))).call) < Left(s.call)
  {
    hide RowsOk, AssertTransition, deploymentTransitions, ExecAndMark;
    var o := Oracle(false, freshId);
    NextKeeps(s, Go(o));
    SagaRecovery.LoneStep(s, o);
    FiveSteps(s.db, s.ran);
    if s.call.PrStart? {
      ProvisionableFrom(s.db.order.status);
    }
    if s.call.PrExec? {
      SmoothExec(s, freshId);
    }
  }

  // No step fails: bindings are there, and the order has not been written since
  // it was read unless its trial was linked.
  lemma SmoothExec(s: Sys, freshId: Id)
    requires Smooth(s) && s.call.PrExec?
    ensures var c := s.call; ExecAndMark(s.db, c.order, c.at, c.version, false, freshId).Ok?
    ensures var c := s.call;
            var db' := ExecAndMark(s.db, c.order, c.at, c.version, false, freshId).value;
            db'.devices != {} && (db'.trials == [] ==> c.order.version == db'.order.version)
  {
    hide RowsOk;
    FiveSteps(s.db, s.ran);
  }

  lemma {:induction false} SmoothRun(s: Sys, freshId: Id) returns (later: seq<Move>)
    requires Smooth(s)
    ensures Run(s, later).call == Returned(None) && Run(s, later).db.order.status == Active
    decreases Left(s.call)
  {
    hide Next, Inv, RowsOk;
    if s.call.Returned? {
      later := [];
    } else {
      var m := Go(Oracle(false, freshId));
      SmoothStep(s, freshId);
      var rest := SmoothRun(Next(s, m), freshId);
      later := [m] + rest;
      RunFromFront(s, m, rest);
    }
  }

  lemma {:induction false} RunFromFront(s: Sys, m: Move, rest: seq<Move>)
    ensures Run(s, [m] + rest) == Run(Next(s, m), rest)
  {
    hide Next;
    if rest == [] {
      assert Run(s, [m]) == Next(Run(s, []), m);
    } else {
      assert ([m] + rest)[..|rest|] == [m] + rest[..|rest| - 1];
      RunFromFront(s, m, rest[..|rest| - 1]);
    }
  }

  lemma {:induction false} RunConcat(s: Sys, a: seq<Move>, b: seq<Move>)
    ensures Run(s, a + b) == Run(Run(s, a), b)
  {
    hide Next;
    if b == [] {
      assert a + b == a;
    } else {
      assert (a + b)[..|a + b| - 1] == a + b[..|b| - 1];
      RunConcat(s, a, b[..|b| - 1]);
    }
  }

  // Whenever a crash hits a call executing a step, a later Provision can make the
  // order active with that step still processing.
  lemma OrderGoesActiveOverInterruptedStep(devices: set<Id>, moves: seq<Move>, freshId: Id) returns (later: seq<Move>)
    requires devices != {}
    requires Run(Init(devices), moves).call.PrExec? || Run(Init(devices), moves).call.PrFailed?
    ensures var k := Run(Init(devices), moves).call.at;
            var db := Run(Init(devices), moves + [Crash] + later).db;
            db.order.status == Active && k < |db.steps| && db.steps[k].status == StepProcessing
  {
    hide Run, Next, RowsOk;
    var s := Run(Init(devices), moves);
    RunKeeps(devices, moves);
    DevicesStayBound(devices, moves);
    RestartIsSmooth(s);
    var restarted := Next(Next(s, Crash), Start(PrStart));
    var rest := SmoothRun(restarted, freshId);
    later := [Start(PrStart)] + rest;
    RunConcat(Init(devices), moves + [Crash], later);
    RunFromFront(Next(s, Crash), Start(PrStart), rest);
    RunEnds(Init(devices), moves, Crash);
    SagaSafety.InterruptedStepIsNeverFinished(devices, moves, later);
  }

  lemma RunEnds(s: Sys, moves: seq<Move>, m: Move)
    ensures Run(s, moves + [m]) == Next(Run(s, moves), m)
  {
    hide Next;
    assert (moves + [m])[..|moves|] == moves;
  }

  lemma RestartIsSmooth(s: Sys)
    requires Inv(s) && (s.call.PrExec? || s.call.PrFailed?) && s.db.devices != {}
    ensures Smooth(Next(Next(s, Crash), Start(PrStart)))
  {
    hide RowsOk;
  }

  // Such orders exist: a crash while the first step runs, then one more Provision.
  lemma ActiveOrderWithProcessingStep(devices: set<Id>, freshId: Id) returns (moves: seq<Move>)
    requires devices != {}
    ensures var db := Run(Init(devices), moves).db;
            db.order.status == Active && |db.steps| == STEPS && db.steps[REGISTER].status == StepProcessing
  {
    hide Run, Next;
    var first := FirstStepRuns(devices);
    var later := OrderGoesActiveOverInterruptedStep(devices, first, freshId);
    moves := first + [Crash] + later;
    ProcessingExactly(devices, moves, REGISTER);
  }

  lemma FirstStepRuns(devices: set<Id>) returns (moves: seq<Move>)
    ensures Run(Init(devices), moves).call.PrExec? && Run(Init(devices), moves).call.at == REGISTER
  {
    hide Run, Next, AssertTransition, deploymentTransitions;
    var o := Oracle(false, 0);
    var s0 := Init(devices);
    assert Run(s0, []) == s0 by { RunOfNothing(s0); }
    RunEnds(s0, [], Start(PrStart));
    moves := [] + [Start(PrStart)];
    var s := Next(s0, Start(PrStart));
    StartMoves(s0);
    var i := 0;
    while i < 5
      invariant 0 <= i <= 5 && Run(s0, moves) == s && Fresh(devices, s, i)
    {
      RunEnds(s0, moves, Go(o));
      FreshStep(devices, s, i, o);
      moves, s, i := moves + [Go(o)], Next(s, Go(o)), i + 1;
    }
  }

  lemma RunOfNothing(s: Sys)
    ensures Run(s, []) == s
  {
  }

  // Where the first Provision of a new order stands after i commits.
  ghost predicate Fresh(devices: set<Id>, s: Sys, i: nat) {
    var db := NewOrder(devices);
    var claimed := db.(order := db.order.(status := Provisioning, version := 2));
    if i == 0 then s.db == db && s.call == PrStart
    else if i == 1 then s.db == db && s.call == PrClaim(db.order)
    else if i == 2 then s.db == claimed && s.call == PrReload
    else if i == 3 then s.db == claimed && s.call == PrList(claimed.order)
    else if i == 4 then s.db == claimed && s.call == PrNext(claimed.order, claimed.steps, 0)
    else s.call.PrExec? && s.call.at == REGISTER
  }

  lemma StartMoves(s: Sys)
    requires s.call == Idle
    ensures Next(s, Start(PrStart)) == s.(call := PrStart)
  {
  }

  lemma FreshStep(devices: set<Id>, s: Sys, i: nat, o: Oracle)
    requires Fresh(devices, s, i) && i < 5
    ensures Fresh(devices, Next(s, Go(o)), i + 1)
  {
    hide AssertTransition, deploymentTransitions;
    ProvisionableFrom(Draft);
  }
}
