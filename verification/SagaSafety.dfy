// What holds of every run of the saga, and of every crash-free sequential one.
module SagaSafety {
  import opened Common
  import opened Status
  import opened SagaDb
  import opened SagaMachine
  import opened SagaCalm
  import opened SagaUndo

  // --- any run, with crashes between any two commits --------------------------------------

  // A done step's effect is there; no effect is there twice; a trial exists
  // exactly when the order is linked to it.
  lemma EffectsOfDoneSteps(devices: set<Id>, moves: seq<Move>)
    ensures var db := Run(Init(devices), moves).db;
            && |db.steps| == STEPS
            && (db.steps[TRIAL].status == StepDone ==> |db.trials| == 1)
            && (db.steps[INSPECT].status == StepDone ==> |db.inspections| == 1)
            && (db.steps[BILL].status == StepDone ==> |db.bills| == 1)
            && |db.trials| <= 1 && |db.inspections| <= 1 && |db.bills| <= 1
            && db.order.trialId == (if db.trials == [] then None else Some(db.trials[0]))
  {
    hide Run, CallOk, SourceOk;
    RunKeeps(devices, moves);
  }

  // Each step is executed to a commit at most once, and was if and only if it is
  // done or, once compensation began, compensated.
  lemma NoStepRunsTwice(devices: set<Id>, moves: seq<Move>, k: nat)
    requires k < STEPS
    ensures var s := Run(Init(devices), moves);
            && |s.ran| == |s.db.steps| == STEPS && s.ran[k] <= 1
            && (s.ran[k] == 1 <==> s.db.steps[k].status in {StepDone, StepCompensated})
            && (s.db.steps[k].status == StepCompensated ==> s.db.order.status in {Compensating, Aborted})
  {
    hide Run, CallOk, SourceOk;
    RunKeeps(devices, moves);
  }

  // An active order's steps are done, or left processing by an interrupted call.
  lemma ActiveStepsAreClaimed(devices: set<Id>, moves: seq<Move>, k: nat)
    requires k < STEPS && Run(Init(devices), moves).db.order.status == Active
    ensures var db := Run(Init(devices), moves).db;
            |db.steps| == STEPS && db.steps[k].status in {StepDone, StepProcessing}
  {
    hide Run, CallOk, SourceOk;
    RunKeeps(devices, moves);
    assert Claimed(Run(Init(devices), moves).db.steps[k]);
  }

  // --- a step a crash interrupted ---------------------------------------------------------

  // No call in progress is executing step k.
  predicate NotAt(c: Call, k: nat) {
    (c.PrExec? ==> c.at != k) && (c.PrFailed? ==> c.at != k)
  }

  lemma StuckStays(s: Sys, m: Move, k: nat)
    requires Inv(s) && k < STEPS && s.db.steps[k].status == StepProcessing && NotAt(s.call, k)
    ensures var s' := Next(s, m);
            |s'.db.steps| == STEPS && s'.db.steps[k] == s.db.steps[k] && NotAt(s'.call, k)
  {
    hide RowsOk, AssertTransition, deploymentTransitions, StepCall;
    FiveSteps(s.db, s.ran);
    if m.Go? {
      if s.call.PrExec? {
        StuckInExec(s, m.oracle, k);
      } else if s.call.PrNext? || s.call.PrFailed? {
        StuckInProvision(s, m.oracle, k);
      } else if s.call.CoNext? || s.call.CoMark? {
        StuckInCompensate(s, m.oracle, k);
      } else {
        StuckElsewhere(s, m.oracle, k);
      }
    }
  }

  lemma StuckInExec(s: Sys, o: Oracle, k: nat)
    requires CallOk(s.db, s.call) && k < |s.db.steps| && NotAt(s.call, k) && s.call.PrExec?
    ensures var (db', c') := StepCall(s.db, s.call, o); |db'.steps| == |s.db.steps| && db'.steps[k] == s.db.steps[k] && NotAt(c', k)
  {
    hide ExecAndMark;
    if ExecAndMark(s.db, s.call.order, s.call.at, s.call.version, o.fail, o.freshId).Ok? {
      ExecTouchesOne(s.db, s.call.order, s.call.at, s.call.version, o);
    }
  }

  lemma StuckInProvision(s: Sys, o: Oracle, k: nat)
    requires CallOk(s.db, s.call) && k < |s.db.steps| && s.db.steps[k].status == StepProcessing && NotAt(s.call, k)
    requires s.call.PrNext? || s.call.PrFailed?
    ensures var (db', c') := StepCall(s.db, s.call, o); |db'.steps| == |s.db.steps| && db'.steps[k] == s.db.steps[k] && NotAt(c', k)
  {
  }

  lemma StuckInCompensate(s: Sys, o: Oracle, k: nat)
    requires CallOk(s.db, s.call) && k < |s.db.steps| && s.db.steps[k].status == StepProcessing
    requires s.call.CoNext? || s.call.CoMark?
    ensures var (db', c') := StepCall(s.db, s.call, o); |db'.steps| == |s.db.steps| && db'.steps[k] == s.db.steps[k] && NotAt(c', k)
  {
  }

  lemma StuckElsewhere(s: Sys, o: Oracle, k: nat)
    requires !s.call.PrExec? && !s.call.PrNext? && !s.call.PrFailed? && !s.call.CoNext? && !s.call.CoMark?
    ensures var (db', c') := StepCall(s.db, s.call, o); db'.steps == s.db.steps && NotAt(c', k)
  {
    hide AssertTransition, deploymentTransitions;
  }

  lemma ExecTouchesOne(db: Db, order: Order, i: nat, version: int, o: Oracle)
    requires ExecAndMark(db, order, i, version, o.fail, o.freshId).Ok?
    ensures var db' := ExecAndMark(db, order, i, version, o.fail, o.freshId).value;
            |db'.steps| == |db.steps| && forall k | 0 <= k < |db.steps| && k != i :: db'.steps[k] == db.steps[k]
  {
  }

  // A step whose execution a crash interrupted stays processing for good: later
  // calls of Provision skip it, Compensate passes it by, whatever else happens.
  lemma {:induction false} InterruptedStepIsNeverFinished(devices: set<Id>, moves: seq<Move>, later: seq<Move>)
    requires Run(Init(devices), moves).call.PrExec? || Run(Init(devices), moves).call.PrFailed?
    ensures var s, s' := Run(Init(devices), moves), Run(Init(devices), moves + [Crash] + later);
            && s.call.at < |s.db.steps| == |s'.db.steps| == STEPS
            && s.db.steps[s.call.at].status == StepProcessing
            && s'.db.steps[s.call.at] == s.db.steps[s.call.at]
            && NotAt(s'.call, s.call.at)
  {
    hide Next, RowsOk, SourceOk;
    RunKeeps(devices, moves);
    var s := Run(Init(devices), moves);
    FiveSteps(s.db, s.ran);
    if later == [] {
      assert (moves + [Crash] + later)[..|moves|] == moves;
      CrashOnlyStops(s);
    } else {
      var front := later[..|later| - 1];
      InterruptedStepIsNeverFinished(devices, moves, front);
      RunKeeps(devices, moves + [Crash] + front);
      assert (moves + [Crash] + later)[..|moves| + |later|] == moves + [Crash] + front;
      StuckStays(Run(Init(devices), moves + [Crash] + front), later[|later| - 1], s.call.at);
    }
  }

  lemma CrashOnlyStops(s: Sys)
    ensures Next(s, Crash) == s.(call := Idle)
  {
  }

  // --- crash-free sequential runs ---------------------------------------------------------

  // A done prefix, then at most one failed or running step, then pending ones.
  predicate Prefixed(steps: seq<Step>, n: nat) {
    && n <= |steps|
    && (forall k | 0 <= k < n :: steps[k].status == StepDone)
    && (n < |steps| ==> steps[n].status in {StepPending, StepFailed, StepProcessing})
    && (forall k | n < k < |steps| :: steps[k].status == StepPending)
  }

  function DoneCount(steps: seq<Step>): (n: nat)
    ensures n <= |steps|
    ensures forall k | 0 <= k < n :: steps[k].status == StepDone
    ensures n < |steps| ==> steps[n].status != StepDone
  {
    if steps == [] || steps[0].status != StepDone then 0
    else
      var rest := DoneCount(steps[1..]);
      assert forall k | 1 <= k < |steps| :: steps[k] == steps[1..][k - 1];
      rest + 1
  }

  lemma InOrderIsPrefixed(steps: seq<Step>)
    requires InOrder(steps) && NoneIs(steps, StepCompensated)
    ensures Prefixed(steps, DoneCount(steps))
  {
    var n := DoneCount(steps);
    forall k | n < k < |steps|
      ensures steps[k].status == StepPending
    {
      PendingFrom(steps, n, k);
    }
  }

  lemma {:induction false} PendingFrom(steps: seq<Step>, n: nat, k: nat)
    requires InOrder(steps) && n < k < |steps| && steps[n].status != StepDone
    ensures steps[k].status == StepPending
  {
    if n + 1 < k {
      PendingFrom(steps, n, k - 1);
    }
  }

  lemma StepsStayInOrder(devices: set<Id>, moves: seq<Move>)
    requires CalmRun(devices, moves)
    requires !(Run(Init(devices), moves).db.order.status in {Compensating, Aborted})
    ensures var s := Run(Init(devices), moves);
            && Prefixed(s.db.steps, DoneCount(s.db.steps))
            && (AtRest(s.call) ==> NoneIs(s.db.steps, StepProcessing))
  {
    hide Run, CallOk, SourceOk, InOrder, Prefixed, CalmRun;
    RunKeeps(devices, moves);
    CalmRunKeeps(devices, moves);
    InOrderIsPrefixed(Run(Init(devices), moves).db.steps);
  }

  // Between calls the order is active exactly when all five steps are done, is
  // waiting for a retry exactly when one has failed, and is a draft only when
  // all are pending.
  lemma ActiveExactlyWhenDone(devices: set<Id>, moves: seq<Move>)
    requires CalmRun(devices, moves) && AtRest(Run(Init(devices), moves).call)
    ensures var db := Run(Init(devices), moves).db;
            && |db.steps| == STEPS
            && (db.order.status == Active <==> AllAre(db.steps, StepDone))
            && (db.order.status != Aborted ==> (db.order.status == PendingRetry <==> !NoneIs(db.steps, StepFailed)))
            && (db.order.status == Draft ==> AllAre(db.steps, StepPending))
            && db.order.status in {Draft, PendingRetry, Active, Aborted}
  {
    hide Run, CallOk, SourceOk, InOrder, CalmRun;
    RunKeeps(devices, moves);
    CalmRunKeeps(devices, moves);
    SettledStatus(Run(Init(devices), moves).db);
  }

  lemma SettledStatus(db: Db)
    requires Settled(db) && |db.steps| == STEPS
    ensures db.order.status == Active <==> AllAre(db.steps, StepDone)
    ensures db.order.status != Aborted ==> (db.order.status == PendingRetry <==> !NoneIs(db.steps, StepFailed))
  {
    if AllAre(db.steps, StepDone) {
      assert db.steps[0].status == StepDone;
    }
  }

  // When Compensate returns after its last update, no step is done, every
  // formerly done step is compensated, and its inspection, bindings and draft
  // bill are undone; an issued bill stays issued.
  lemma CompensateUndoes(devices: set<Id>, moves: seq<Move>, o: Oracle)
    requires CalmRun(devices, moves) && Run(Init(devices), moves).call.CoAbort?
    ensures var s, s' := Run(Init(devices), moves), Next(Run(Init(devices), moves), Go(o));
            && s'.call == Returned(None) && s'.db.order.status == Aborted
            && s.claimed.Some? && Undone(s.claimed.value, s'.db) && NoneIs(s'.db.steps, StepDone)
            && forall i | 0 <= i < |s'.db.inspections| ::
                 s.claimed.value.steps[INSPECT].status == StepDone ==> s'.db.inspections[i] != Dispatched
  {
    hide Run, CallOk, SourceOk, InOrder, CalmRun, UndoneFrom, Undone;
    RunKeeps(devices, moves);
    CalmRunKeeps(devices, moves);
    var s := Run(Init(devices), moves);
    CalmUndo(s, o);
    UndoneAll(s.claimed.value);
    AbortKeepsUndone(s.claimed.value, UndoneFrom(s.claimed.value, 0));
  }

  lemma AbortKeepsUndone(before: Db, after: Db)
    requires Undone(before, after)
    ensures Undone(before, WithAbort(after)) && NoneIs(after.steps, StepDone)
    ensures forall i | 0 <= i < |after.inspections| ::
              before.steps[INSPECT].status == StepDone ==> after.inspections[i] != Dispatched
  {
  }
}
