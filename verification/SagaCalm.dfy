// Crash-free sequential runs of the saga: calls follow one another, steps may
// fail and be retried, and the surroundings act only between calls.
module SagaCalm {
  import opened Common
  import opened Status
  import opened SagaDb
  import opened SagaMachine
  import opened SagaUndo

  predicate Calm(s: Sys, m: Move) {
    match m
    case Crash => false
    case Start(_) => true
    case Go(_) => true
    case _ => AtRest(s.call)
  }

  predicate CalmRun(devices: set<Id>, moves: seq<Move>) {
    moves == []
    || (CalmRun(devices, moves[..|moves| - 1])
        && Calm(Run(Init(devices), moves[..|moves| - 1]), moves[|moves| - 1]))
  }

  // Every step but the pending ones has its predecessor done.
  predicate InOrder(steps: seq<Step>) {
    forall k | 1 <= k < |steps| :: steps[k].status != StepPending ==> steps[k - 1].status == StepDone
  }

  predicate AllAre(steps: seq<Step>, status: StepStatus) {
    forall k | 0 <= k < |steps| :: steps[k].status == status
  }

  predicate DoneBefore(steps: seq<Step>, i: nat) {
    i <= |steps| && forall k | 0 <= k < i :: steps[k].status == StepDone
  }

  // Between calls.
  predicate Settled(db: Db) {
    && NoneIs(db.steps, StepProcessing)
    && match db.order.status
       case Draft => AllAre(db.steps, StepPending)
       case PendingRetry => !NoneIs(db.steps, StepFailed)
       case Active => AllAre(db.steps, StepDone)
       case Aborted => NoneIs(db.steps, StepDone)
       case Provisioning => false
       case Compensating => false
  }

  // Exactly step i is processing, the ones before are done.
  predicate RunningAt(db: Db, i: nat) {
    && i < |db.steps| && DoneBefore(db.steps, i)
    && forall k | 0 <= k < |db.steps| :: db.steps[k].status == StepProcessing <==> k == i
  }

  ghost predicate CalmCall(db: Db, c: Call, claimed: Option<Db>) {
    match c
    case Idle => Settled(db)
    case Returned(_) => Settled(db)
    case PrStart => Settled(db)
    case CoStart => Settled(db)
    case PrClaim(order) => Settled(db) && order == db.order
    case CoClaim(order) => Settled(db) && order == db.order
    case PrReload => NoneIs(db.steps, StepProcessing)
    case PrList(_) => NoneIs(db.steps, StepProcessing)
    case PrNext(_, _, i) => NoneIs(db.steps, StepProcessing) && DoneBefore(db.steps, i)
    case PrExec(_, _, i, _) => RunningAt(db, i)
    case PrFailed(i, _) => RunningAt(db, i)
    case PrBump => NoneIs(db.steps, StepProcessing) && !NoneIs(db.steps, StepFailed)
    case PrCurrent => NoneIs(db.steps, StepProcessing) && !NoneIs(db.steps, StepFailed)
    case PrRetry(version) =>
      NoneIs(db.steps, StepProcessing) && !NoneIs(db.steps, StepFailed) && version == db.order.version
    case PrRefresh => AllAre(db.steps, StepDone)
    case PrActivate(version) => AllAre(db.steps, StepDone) && version == db.order.version
    case _ => claimed.Some? && NoneIs(claimed.value.steps, StepProcessing) && UndoAt(db, c, claimed.value)
  }

  ghost predicate CalmInv(s: Sys) {
    && CalmCall(s.db, s.call, s.claimed)
    && (s.db.order.status in {Compensating, Aborted} || InOrder(s.db.steps))
  }

  // --- the calm invariant, step by step ------------------------------------------------

  lemma CalmProvision(s: Sys, o: Oracle)
    requires Inv(s) && SourceOk(s.call) && CalmInv(s)
    requires s.call.PrStart? || s.call.PrClaim? || s.call.PrReload? || s.call.PrList? || s.call.PrBump?
             || s.call.PrCurrent? || s.call.PrRetry? || s.call.PrRefresh? || s.call.PrActivate?
    ensures CalmInv(Next(s, Go(o)))
  {
    hide RowsOk, AssertTransition, deploymentTransitions;
    FiveSteps(s.db, s.ran);
    if s.call.PrStart? {
      ProvisionableFrom(s.db.order.status);
    }
  }

  lemma CalmNext(s: Sys, o: Oracle)
    requires Inv(s) && CalmInv(s) && s.call.PrNext?
    ensures CalmInv(Next(s, Go(o)))
  {
    hide RowsOk;
    FiveSteps(s.db, s.ran);
    if s.call.at < STEPS {
      NoneCompensated(s.db, s.ran, s.call.at);
    }
  }

  lemma CalmExec(s: Sys, o: Oracle)
    requires Inv(s) && CalmInv(s) && (s.call.PrExec? || s.call.PrFailed?)
    ensures CalmInv(Next(s, Go(o)))
  {
    hide RowsOk, ExecStep;
    FiveSteps(s.db, s.ran);
    var i := s.call.at;
    if s.call.PrExec? && ExecStep(s.db, s.call.order, i, o.fail, o.freshId).Ok? {
      EffectRows(s.db, s.ran, s.call.order, i, o.fail, o.freshId);
    } else if s.call.PrFailed? {
      assert Next(s, Go(o)).db.steps[i].status == StepFailed;
    }
  }

  lemma CalmClaim(s: Sys, o: Oracle)
    requires Inv(s) && SourceOk(s.call) && CalmInv(s) && (s.call.CoStart? || s.call.CoClaim?)
    ensures CalmInv(Next(s, Go(o)))
  {
    hide RowsOk, AssertTransition, deploymentTransitions, UndoneFrom;
    FiveSteps(s.db, s.ran);
    if s.call.CoStart? {
      CompensableFrom(s.db.order.status);
    }
  }

  predicate Compensates(c: Call) {
    c.CoList? || c.CoNext? || c.CoBill? || c.CoVoid? || c.CoMark? || c.CoCurrent? || c.CoAbort?
  }

  lemma CalmUndo(s: Sys, o: Oracle)
    requires Inv(s) && CalmInv(s) && Compensates(s.call)
    ensures CalmInv(Next(s, Go(o)))
    ensures s.claimed.Some? && UndoAt(s.db, s.call, s.claimed.value)
    ensures s.call.CoAbort? ==>
              && Next(s, Go(o)).call == Returned(None)
              && Next(s, Go(o)).db == WithAbort(UndoneFrom(s.claimed.value, 0))
  {
    hide UndoneFrom, RowsOk, StepCall, UndoAt;
    UndoAtStep(s.db, s.call, s.claimed.value, o);
    UndoStepStatus(s, o);
    if Next(s, Go(o)).call.Returned? {
      UndoneSettles(s.claimed.value, Next(s, Go(o)).db, Next(s, Go(o)).call);
    }
  }

  lemma UndoStepStatus(s: Sys, o: Oracle)
    requires CallOk(s.db, s.call) && Compensates(s.call)
    ensures var (db', c') := StepCall(s.db, s.call, o);
            && db'.order.status in {Compensating, Aborted}
            && (Compensates(c') || c'.Returned?)
  {
  }

  lemma UndoneSettles(before: Db, after: Db, c: Call)
    requires UndoAt(after, c, before) && c.Returned? && NoneIs(before.steps, StepProcessing)
    ensures Settled(after) && c == Returned(None) && after == WithAbort(UndoneFrom(before, 0))
  {
    hide UndoneFrom;
    UndoneSteps(before, 0);
  }

  lemma CalmGo(s: Sys, o: Oracle)
    requires Inv(s) && SourceOk(s.call) && CalmInv(s)
    ensures CalmInv(Next(s, Go(o)))
  {
    hide RowsOk, CalmInv, SourceOk, StepCall, Next;
    match s.call {
      case PrNext(_, _, _) => CalmNext(s, o);
      case PrExec(_, _, _, _) => CalmExec(s, o);
      case PrFailed(_, _) => CalmExec(s, o);
      case CoStart => CalmClaim(s, o);
      case CoClaim(_) => CalmClaim(s, o);
      case CoList => CalmUndo(s, o);
      case CoNext(_, _) => CalmUndo(s, o);
      case CoBill(_, _) => CalmUndo(s, o);
      case CoVoid(_, _, _) => CalmUndo(s, o);
      case CoMark(_, _) => CalmUndo(s, o);
      case CoCurrent => CalmUndo(s, o);
      case CoAbort(_) => CalmUndo(s, o);
      case Idle => CalmRest(s, o);
      case Returned(_) => CalmRest(s, o);
      case _ => CalmProvision(s, o);
    }
  }

  lemma CalmRest(s: Sys, o: Oracle)
    requires AtRest(s.call) && CalmInv(s)
    ensures CalmInv(Next(s, Go(o)))
  {
  }

  lemma CalmAround(s: Sys, m: Move)
    requires CalmInv(s) && AtRest(s.call) && !m.Go?
    ensures CalmInv(Next(s, m))
  {
  }

  lemma CalmNextKeeps(s: Sys, m: Move)
    requires Inv(s) && SourceOk(s.call) && CalmInv(s) && Calm(s, m)
    ensures CalmInv(Next(s, m))
  {
    hide Inv, CalmInv, SourceOk, Next;
    match m {
      case Go(o) => CalmGo(s, o);
      case Start(_) =>
        if AtRest(s.call) {
          CalmAround(s, m);
        } else {
          StartIgnored(s, m);
        }
      case _ => CalmAround(s, m);
    }
  }

  lemma StartIgnored(s: Sys, m: Move)
    requires m.Start? && !AtRest(s.call)
    ensures Next(s, m) == s
  {
  }

  lemma {:induction false} CalmRunKeeps(devices: set<Id>, moves: seq<Move>)
    requires CalmRun(devices, moves)
    ensures CalmInv(Run(Init(devices), moves))
  {
    hide Next, Inv, SourceOk, Calm;
    if moves == [] {
      CalmStart(devices);
    } else {
      var front := moves[..|moves| - 1];
      CalmRunKeeps(devices, front);
      RunKeeps(devices, front);
      CalmNextKeeps(Run(Init(devices), front), moves[|moves| - 1]);
    }
  }

  lemma CalmStart(devices: set<Id>)
    ensures CalmInv(Init(devices))
  {
  }
}
