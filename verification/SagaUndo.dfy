// What compensation does to the tables: step by step while it runs, and in one
// piece when nobody interrupts it.
module SagaUndo {
  import opened Common
  import opened Status
  import opened SagaDb
  import opened SagaMachine

  predicate NoneIs(steps: seq<Step>, status: StepStatus) {
    forall k | 0 <= k < |steps| :: steps[k].status != status
  }

  function WithAbort(db: Db): Db {
    db.(order := db.order.(status := Aborted, version := db.order.version + 1))
  }

  // --- what undoing leaves alone ------------------------------------------------------

  lemma EffectKeeps(db: Db, i: nat)
    ensures UndoEffect(db, i).steps == db.steps && UndoEffect(db, i).order == db.order && UndoEffect(db, i).trials == db.trials
    ensures i != BILL ==> UndoEffect(db, i).bills == db.bills
    ensures i != INSPECT ==> UndoEffect(db, i).inspections == db.inspections
    ensures i != BIND ==> UndoEffect(db, i).devices == db.devices
  {
  }

  // Steps from i on that were done are compensated, all others as before.
  lemma {:induction false} UndoneSteps(db: Db, i: nat)
    requires |db.steps| == STEPS
    ensures UndoneFrom(db, i).order == db.order && UndoneFrom(db, i).trials == db.trials
    ensures |UndoneFrom(db, i).steps| == STEPS
    ensures forall k | 0 <= k < STEPS ::
              UndoneFrom(db, i).steps[k]
              == if i <= k && db.steps[k].status == StepDone
                 then db.steps[k].(status := StepCompensated, version := db.steps[k].version + 1) else db.steps[k]
    decreases STEPS - i
  {
    hide UndoEffect;
    if i < STEPS {
      UndoneSteps(db, i + 1);
      EffectKeeps(UndoneFrom(db, i + 1), i);
    }
  }

  lemma NothingUndone(db: Db)
    ensures UndoneFrom(db, STEPS) == db
  {
  }

  lemma OneUndone(db: Db, left: nat)
    requires |db.steps| == STEPS && 0 < left <= STEPS
    ensures UndoneFrom(db, left - 1) == UndoStep(UndoneFrom(db, left), left - 1)
  {
  }

  // --- a compensation in progress -------------------------------------------------------

  // Where an undisturbed compensation stands, told from the tables its claim left.
  predicate UndoAt(db: Db, c: Call, before: Db) {
    && |before.steps| == STEPS && before.order.status == Compensating
    && match c
       case CoList => db == before
       case CoNext(steps, left) => steps == before.steps && left <= STEPS && db == UndoneFrom(before, left)
       case CoBill(steps, left) =>
         steps == before.steps && left == STEPS && steps[BILL].status == StepDone && db == UndoneFrom(before, left)
       case CoVoid(steps, left, version) =>
         && steps == before.steps && left == STEPS && steps[BILL].status == StepDone && db == UndoneFrom(before, left)
         && db.bills != [] && version == db.bills[0].version
       case CoMark(steps, left) =>
         && steps == before.steps && 0 < left <= STEPS && steps[left - 1].status == StepDone
         && db == UndoEffect(UndoneFrom(before, left), left - 1)
       case CoCurrent => db == UndoneFrom(before, 0)
       case CoAbort(version) => db == UndoneFrom(before, 0) && version == db.order.version
       case Returned(failure) => failure == None && db == WithAbort(UndoneFrom(before, 0))
       case _ => false
  }

  lemma UndoAtStep(db: Db, c: Call, before: Db, o: Oracle)
    requires UndoAt(db, c, before) && !c.Returned?
    ensures var (db', c') := StepCall(db, c, o); UndoAt(db', c', before) && (c.CoAbort? ==> c'.Returned?)
  {
    hide StepCall, UndoneFrom;
    match c {
      case CoNext(_, _) => UndoAtNext(db, c, before, o);
      case CoMark(_, _) => UndoAtMark(db, c, before, o);
      case _ => UndoAtOther(db, c, before, o);
    }
  }

  // Choosing the next step to undo, and running its effect.
  lemma UndoAtNext(db: Db, c: Call, before: Db, o: Oracle)
    requires UndoAt(db, c, before) && c.CoNext?
    ensures var (db', c') := StepCall(db, c, o); UndoAt(db', c', before)
  {
    hide UndoneFrom;
    UndoneSteps(before, c.left);
    if 0 < c.left {
      OneUndone(before, c.left);
    }
  }

  lemma UndoAtMark(db: Db, c: Call, before: Db, o: Oracle)
    requires UndoAt(db, c, before) && c.CoMark?
    ensures var (db', c') := StepCall(db, c, o); UndoAt(db', c', before)
  {
    hide UndoneFrom, UndoEffect;
    UndoneSteps(before, c.left);
    EffectKeeps(UndoneFrom(before, c.left), c.left - 1);
    OneUndone(before, c.left);
  }

  lemma UndoAtOther(db: Db, c: Call, before: Db, o: Oracle)
    requires UndoAt(db, c, before) && !c.Returned? && !c.CoNext? && !c.CoMark?
    ensures var (db', c') := StepCall(db, c, o); UndoAt(db', c', before) && (c.CoAbort? ==> c'.Returned?)
  {
    hide UndoneFrom;
    match c {
      case CoList => NothingUndone(before);
      case CoAbort(_) => UndoneSteps(before, 0);
      case _ =>
    }
  }

  // --- the whole call ----------------------------------------------------------------------

  // Compensation read back: from the tables it found to the tables it leaves.
  predicate Undone(before: Db, after: Db) {
    && |before.steps| == |after.steps| == STEPS
    && (forall k | 0 <= k < STEPS ::
          after.steps[k] == if before.steps[k].status == StepDone
                            then before.steps[k].(status := StepCompensated, version := before.steps[k].version + 1)
                            else before.steps[k])
    && after.trials == before.trials
    && after.devices == (if before.steps[BIND].status == StepDone then {} else before.devices)
    && |after.inspections| == |before.inspections|
    && (forall i | 0 <= i < |before.inspections| ::
          after.inspections[i] == if before.steps[INSPECT].status == StepDone && before.inspections[i] == Dispatched
                                  then Cancelled else before.inspections[i])
    && after.bills == (if before.steps[BILL].status == StepDone && before.bills != [] && before.bills[0].status == BillDraft
                       then before.bills[0 := Bill(BillVoided, before.bills[0].version + 1)] else before.bills)
  }

  lemma UndoneAll(db: Db)
    requires |db.steps| == STEPS
    ensures Undone(db, UndoneFrom(db, 0))
  {
    hide UndoEffect, UndoneFrom;
    UndoneSteps(db, 0);
    EffectsUndone(db);
  }

  lemma EffectsUndone(db: Db)
    requires |db.steps| == STEPS
    ensures var after := UndoneFrom(db, 0);
            && after.devices == (if db.steps[BIND].status == StepDone then {} else db.devices)
            && after.inspections == (if db.steps[INSPECT].status == StepDone then Db.Cancelling(db.inspections) else db.inspections)
            && after.bills == (if db.steps[BILL].status == StepDone && db.bills != [] && db.bills[0].status == BillDraft
                               then db.bills[0 := Bill(BillVoided, db.bills[0].version + 1)] else db.bills)
  {
    hide UndoneFrom;
    var d5, d4, d3, d2, d1 := UndoneFrom(db, 5), UndoneFrom(db, 4), UndoneFrom(db, 3), UndoneFrom(db, 2), UndoneFrom(db, 1);
    NothingUndone(db);
    OneUndone(db, 5);
    UndoneSteps(db, 4);
    assert d4.devices == db.devices && d4.inspections == db.inspections;
    OneUndone(db, 4);
    UndoneSteps(db, 3);
    assert d3.devices == db.devices && d3.bills == d4.bills;
    OneUndone(db, 3);
    UndoneSteps(db, 2);
    assert d2 == UndoStep(d3, TRIAL) && d2.devices == db.devices && d2.bills == d4.bills && d2.inspections == d3.inspections;
    OneUndone(db, 2);
    UndoneSteps(db, 1);
    assert d1.bills == d4.bills && d1.inspections == d3.inspections;
    OneUndone(db, 1);
  }

  // What a Compensate nobody interrupts does to any order, whatever crashes left
  // its steps as: an aborted order is left alone, a draft is refused, any other
  // is undone and aborted.
  predicate Compensated(before: Db, after: Db, failure: Option<Error>) {
    match before.order.status
    case Aborted => failure == None && after == before
    case Draft => failure == Some(IllegalTransition) && after == before
    case _ =>
      && failure == None && Undone(before, after)
      && after.order == before.order.(status := Aborted, version := before.order.version + 2)
  }

  function WithClaim(db: Db): Db {
    db.(order := db.order.(status := Compensating, version := db.order.version + 1))
  }

  predicate LoneAt(before: Db, db: Db, c: Call) {
    && |before.steps| == STEPS
    && match c
       case CoStart => db == before
       case CoClaim(order) => db == before && order == before.order && !(order.status in {Aborted, Draft})
       case Returned(failure) => Compensated(before, db, failure)
       case _ => !(before.order.status in {Aborted, Draft}) && UndoAt(db, c, WithClaim(before))
  }

  lemma LoneAtStep(before: Db, db: Db, c: Call, o: Oracle)
    requires LoneAt(before, db, c)
    ensures var (db', c') := StepCall(db, c, o); LoneAt(before, db', c')
  {
    hide UndoneFrom, Compensated, StepCall;
    match c {
      case CoStart => LoneStart(before, o);
      case CoClaim(_) => LoneClaim(before, db, c, o);
      case Returned(_) => ReturnedRests(db, c, o);
      case _ =>
        UndoAtStep(db, c, WithClaim(before), o);
        if StepCall(db, c, o).1.Returned? {
          LoneEnds(before, StepCall(db, c, o).0);
        }
    }
  }

  lemma ReturnedRests(db: Db, c: Call, o: Oracle)
    requires c.Returned?
    ensures StepCall(db, c, o) == (db, c)
  {
  }

  lemma LoneStart(before: Db, o: Oracle)
    requires |before.steps| == STEPS
    ensures var (db', c') := StepCall(before, CoStart, o); LoneAt(before, db', c')
  {
    hide UndoneFrom, AssertTransition, deploymentTransitions;
    CompensableFrom(before.order.status);
  }

  lemma LoneClaim(before: Db, db: Db, c: Call, o: Oracle)
    requires LoneAt(before, db, c) && c.CoClaim?
    ensures var (db', c') := StepCall(db, c, o); LoneAt(before, db', c')
  {
    hide UndoneFrom, Compensated;
  }

  lemma LoneEnds(before: Db, after: Db)
    requires |before.steps| == STEPS && !(before.order.status in {Aborted, Draft})
    requires after == WithAbort(UndoneFrom(WithClaim(before), 0))
    ensures Compensated(before, after, None)
  {
    hide UndoneFrom;
    UndoneAll(WithClaim(before));
    UndoneSteps(WithClaim(before), 0);
  }

  // --- every run: nothing done is left --------------------------------------------------------

  predicate NoDispatched(db: Db) {
    forall i | 0 <= i < |db.inspections| :: db.inspections[i] != Dispatched
  }

  // The steps from left on have been gone through.
  predicate DoneBelow(db: Db, left: nat) {
    forall k | 0 <= k < |db.steps| && left <= k :: db.steps[k].status != StepDone
  }

  ghost predicate Progress(db: Db, c: Call) {
    match c
    case CoNext(_, left) => DoneBelow(db, left)
    case CoBill(_, left) => DoneBelow(db, left) && left == STEPS && db.bills != []
    case CoVoid(_, left, _) => DoneBelow(db, left) && left == STEPS && db.bills != []
    case CoMark(_, left) =>
      && DoneBelow(db, left)
      && (left - 1 == BIND ==> db.devices == {}) && (left - 1 == INSPECT ==> NoDispatched(db))
    case CoCurrent => DoneBelow(db, 0)
    case CoAbort(_) => DoneBelow(db, 0)
    case _ => true
  }

  ghost predicate GoneThrough(db: Db) {
    && |db.steps| == STEPS
    && (db.order.status == Aborted ==> DoneBelow(db, 0))
    && (db.steps[BIND].status == StepCompensated ==> db.devices == {})
    && (db.steps[INSPECT].status == StepCompensated ==> NoDispatched(db))
  }

  lemma GoneThroughStep(s: Sys, o: Oracle)
    requires Inv(s) && SourceOk(s.call) && GoneThrough(s.db) && Progress(s.db, s.call)
    ensures var (db', c') := StepCall(s.db, s.call, o); GoneThrough(db') && Progress(db', c')
  {
    hide RowsOk, StepCall, GoneThrough, Progress, CallOk, SourceOk;
    match s.call {
      case CoNext(_, _) => NextGoes(s, o);
      case CoMark(_, _) => MarkGoes(s, o);
      case CoBill(_, _) => BillGoes(s, o);
      case CoVoid(_, _, _) => BillGoes(s, o);
      case CoAbort(_) => AbortGoes(s, o);
      case PrNext(_, _, _) => ProvisionGoes(s, o);
      case PrExec(_, _, _, _) => ExecGoes(s, o);
      case PrFailed(_, _) => ProvisionGoes(s, o);
      case _ => OtherGoes(s, o);
    }
  }

  lemma NextGoes(s: Sys, o: Oracle)
    requires Inv(s) && s.call.CoNext? && GoneThrough(s.db) && Progress(s.db, s.call)
    ensures var (db', c') := StepCall(s.db, s.call, o); GoneThrough(db') && Progress(db', c')
  {
    hide RowsOk;
    if s.call.left == STEPS {
      BillStays(s.db, s.ran);
    }
  }

  lemma BillStays(db: Db, ran: seq<nat>)
    requires RowsOk(db, ran)
    ensures |db.steps| == STEPS && (db.steps[BILL].status == StepDone ==> db.bills != [])
  {
  }

  lemma MarkGoes(s: Sys, o: Oracle)
    requires CallOk(s.db, s.call) && s.call.CoMark? && GoneThrough(s.db) && Progress(s.db, s.call)
    ensures var (db', c') := StepCall(s.db, s.call, o); GoneThrough(db') && Progress(db', c')
  {
  }

  lemma BillGoes(s: Sys, o: Oracle)
    requires CallOk(s.db, s.call) && (s.call.CoBill? || s.call.CoVoid?) && GoneThrough(s.db) && Progress(s.db, s.call)
    ensures var (db', c') := StepCall(s.db, s.call, o); GoneThrough(db') && Progress(db', c')
  {
  }

  lemma AbortGoes(s: Sys, o: Oracle)
    requires s.call.CoAbort? && GoneThrough(s.db) && Progress(s.db, s.call)
    ensures var (db', c') := StepCall(s.db, s.call, o); GoneThrough(db') && Progress(db', c')
  {
  }

  lemma ProvisionGoes(s: Sys, o: Oracle)
    requires CallOk(s.db, s.call) && (s.call.PrNext? || s.call.PrFailed?) && GoneThrough(s.db)
    ensures var (db', c') := StepCall(s.db, s.call, o); GoneThrough(db') && Progress(db', c')
  {
  }

  lemma ExecGoes(s: Sys, o: Oracle)
    requires Inv(s) && s.call.PrExec? && GoneThrough(s.db)
    ensures var (db', c') := StepCall(s.db, s.call, o); GoneThrough(db') && Progress(db', c')
  {
    hide RowsOk, ExecStep;
    NoneCompensated(s.db, s.ran, BIND);
    NoneCompensated(s.db, s.ran, INSPECT);
    if ExecStep(s.db, s.call.order, s.call.at, o.fail, o.freshId).Ok? {
      EffectRows(s.db, s.ran, s.call.order, s.call.at, o.fail, o.freshId);
    }
  }

  lemma OtherGoes(s: Sys, o: Oracle)
    requires CallOk(s.db, s.call) && GoneThrough(s.db) && Progress(s.db, s.call)
    requires !s.call.CoNext? && !s.call.CoMark? && !s.call.CoBill? && !s.call.CoVoid? && !s.call.CoAbort?
    requires !s.call.PrNext? && !s.call.PrExec? && !s.call.PrFailed?
    ensures var (db', c') := StepCall(s.db, s.call, o); GoneThrough(db') && Progress(db', c')
  {
    hide AssertTransition, deploymentTransitions;
  }

  lemma GoneThroughAround(s: Sys, m: Move)
    requires !m.Go? && GoneThrough(s.db) && Progress(s.db, s.call)
    ensures GoneThrough(Next(s, m).db) && Progress(Next(s, m).db, Next(s, m).call)
  {
  }

  lemma {:induction false} GoneThroughInRuns(devices: set<Id>, moves: seq<Move>)
    ensures var s := Run(Init(devices), moves); GoneThrough(s.db) && Progress(s.db, s.call)
  {
    hide Inv, SourceOk, StepCall, GoneThrough, Progress;
    if moves == [] {
      NothingGone(devices);
    } else {
      var s, m := Run(Init(devices), moves[..|moves| - 1]), moves[|moves| - 1];
      GoneThroughInRuns(devices, moves[..|moves| - 1]);
      RunKeeps(devices, moves[..|moves| - 1]);
      match m {
        case Go(o) => GoneThroughStep(s, o);
        case _ => GoneThroughAround(s, m);
      }
    }
  }

  lemma NothingGone(devices: set<Id>)
    ensures GoneThrough(Init(devices).db) && Progress(Init(devices).db, Init(devices).call)
  {
  }

  // In every run, whatever crashes and whoever writes in between: once
  // compensation has gone through its steps, and on every aborted order, no step
  // is done, the steps once executed are exactly the compensated ones, a
  // compensated binding step has no device bound and a compensated inspection
  // step none dispatched.
  lemma AbortedIsUndone(devices: set<Id>, moves: seq<Move>)
    requires var s := Run(Init(devices), moves);
             s.call.CoCurrent? || s.call.CoAbort? || s.db.order.status == Aborted
    ensures var s := Run(Init(devices), moves);
            && |s.db.steps| == |s.ran| == STEPS && NoneIs(s.db.steps, StepDone)
            && (forall k | 0 <= k < STEPS :: s.ran[k] == 1 <==> s.db.steps[k].status == StepCompensated)
            && (s.db.steps[BIND].status == StepCompensated ==> s.db.devices == {})
            && (s.db.steps[INSPECT].status == StepCompensated ==> NoDispatched(s.db))
  {
    hide Run, SourceOk, CallOk;
    GoneThroughInRuns(devices, moves);
    RunKeeps(devices, moves);
  }

  // Voiding leaves a draft bill behind, under a step marked compensated next,
  // exactly when the bill's row was rewritten since it was read.
  lemma BillStaysDraftExactly(devices: set<Id>, moves: seq<Move>, o: Oracle)
    requires Run(Init(devices), moves).call.CoVoid?
    ensures var s, s' := Run(Init(devices), moves), Next(Run(Init(devices), moves), Go(o));
            && s.db.bills != [] && s'.db.bills != [] && s'.call.CoMark?
            && (s'.db.bills[0].status == BillDraft <==>
                  s.db.bills[0].status == BillDraft && s.db.bills[0].version != s.call.version)
  {
    hide Run, GoneThrough;
    GoneThroughInRuns(devices, moves);
  }
}
