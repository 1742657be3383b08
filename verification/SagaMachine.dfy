// The provisioning saga of one order, one commit a step, with at most one saga
// call at a time. Calls may crash between any two commits; the surroundings may
// touch the order's row and its bill in between.
module SagaMachine {
  import opened Common
  import opened Status
  import opened SagaDb

  datatype Call =
    | Idle
    // Provision
    | PrStart
    | PrClaim(order: Order)
    | PrReload
    | PrList(order: Order)
    | PrNext(order: Order, steps: seq<Step>, at: nat)
    | PrExec(order: Order, steps: seq<Step>, at: nat, version: int)
    | PrFailed(at: nat, version: int)
    | PrBump
    | PrCurrent
    | PrRetry(version: int)
    | PrRefresh
    | PrActivate(version: int)
    // Compensate
    | CoStart
    | CoClaim(order: Order)
    | CoList
    | CoNext(steps: seq<Step>, left: nat)
    | CoBill(steps: seq<Step>, left: nat)
    | CoVoid(steps: seq<Step>, left: nat, version: int)
    | CoMark(steps: seq<Step>, left: nat)
    | CoCurrent
    | CoAbort(version: int)
    // returned
    | Returned(failure: Option<Error>)

  datatype Oracle = Oracle(fail: bool, freshId: Id)

  datatype Move =
    | Start(call: Call)
    | Go(oracle: Oracle)
    | Crash
    | Touch
    | GenerateBill
    | BillTotals
    | IssueBill

  // History: ran counts the committed executions of each step; claimed holds the
  // tables as the last call that began compensating left them.
  datatype Sys = Sys(db: Db, call: Call, ran: seq<nat>, claimed: Option<Db>)

  function Init(devices: set<Id>): Sys {
    Sys(NewOrder(devices), Idle, seq(STEPS, _ => 0), None)
  }

  function Commit(db: Db, r: Result<Db>): Db {
    if r.Ok? then r.value else db
  }

  // --- the programs ---------------------------------------------------------------------

  // Where a status update that succeeds or fails leads.
  function After(r: Result<Db>, next: Call): Call {
    if r.Ok? then next else Returned(Some(r.error))
  }

  function StepCall(db: Db, c: Call, o: Oracle): (Db, Call) {
    match c
    case PrStart =>
      (db, if db.order.status == Active then Returned(None)
           else if db.order.status == Aborted || db.order.status == Compensating then Returned(Some(IllegalTransition))
           else if !AssertTransition(deploymentTransitions, db.order.status, Provisioning) then
             Returned(Some(IllegalTransition))
           else PrClaim(db.order))
    case PrClaim(order) =>
      var r := db.UpdateStatus(order.status, Provisioning, order.version);
      (Commit(db, r), After(r, PrReload))
    case PrReload => (db, PrList(db.order))
    case PrList(order) => (db, PrNext(order, db.steps, 0))
    case PrNext(order, steps, i) =>
      if i >= STEPS || i >= |steps| then (db, PrRefresh)
      else if steps[i].status == StepDone || steps[i].status == StepCompensated then (db, PrNext(order, steps, i + 1))
      else
        // A step that cannot be claimed is skipped.
        (match db.MarkProcessing(i, steps[i].version)
         case Ok(db') => (db', PrExec(order, steps, i, steps[i].version + 1))
         case Err(_) => (db, PrNext(order, steps, i + 1)))
    case PrExec(order, steps, i, version) =>
      (match ExecAndMark(db, order, i, version, o.fail, o.freshId)
       case Ok(db') => (db', PrNext(order, steps, i + 1))
       case Err(_) => (db, PrFailed(i, version)))
    case PrFailed(i, version) => (Commit(db, db.Mark(i, StepFailed, version)), PrBump)
    case PrBump => (db.BumpRetry(), PrCurrent)
    case PrCurrent => (db, PrRetry(db.order.version))
    case PrRetry(version) =>
      (Commit(db, db.UpdateStatus(Provisioning, PendingRetry, version)), Returned(Some(Retryable)))
    case PrRefresh => (db, PrActivate(db.order.version))
    case PrActivate(version) =>
      var r := db.UpdateStatus(Provisioning, Active, version);
      (Commit(db, r), After(r, Returned(None)))
    case CoStart =>
      (db, if db.order.status == Aborted then Returned(None)
           else if !AssertTransition(deploymentTransitions, db.order.status, Compensating) then
             Returned(Some(IllegalTransition))
           else CoClaim(db.order))
    case CoClaim(order) =>
      var r := db.UpdateStatus(order.status, Compensating, order.version);
      (Commit(db, r), After(r, CoList))
    case CoList => (db, CoNext(db.steps, STEPS))
    case CoNext(steps, left) =>
      if left == 0 then (db, CoCurrent)
      else if left > |steps| || steps[left - 1].status != StepDone then (db, CoNext(steps, left - 1))
      else if left - 1 == BILL then (db, CoBill(steps, left))
      else if left - 1 == INSPECT then (db.CancelInspections(), CoMark(steps, left))
      else if left - 1 == BIND then (db.UnbindAllDevices(), CoMark(steps, left))
      else (db, CoMark(steps, left))
    case CoBill(steps, left) =>
      (db, if db.bills == [] then CoMark(steps, left) else CoVoid(steps, left, db.bills[0].version))
    case CoVoid(steps, left, version) =>
      // A bill that is not a draft any more is left alone.
      (Commit(db, db.UpdateBillStatus(BillDraft, BillVoided, version)), CoMark(steps, left))
    case CoMark(steps, left) =>
      if left == 0 || left > |steps| then (db, CoCurrent)
      else (Commit(db, db.Mark(left - 1, StepCompensated, steps[left - 1].version)), CoNext(steps, left - 1))
    case CoCurrent => (db, CoAbort(db.order.version))
    case CoAbort(version) =>
      (Commit(db, db.UpdateStatus(Compensating, Aborted, version)), Returned(None))
    case Idle => (db, c)
    case Returned(_) => (db, c)
  }

  predicate AtRest(c: Call) { c.Idle? || c.Returned? }

  // --- the machine ------------------------------------------------------------------------

  function Next(s: Sys, m: Move): Sys {
    match m
    case Start(call) =>
      if AtRest(s.call) && (call.PrStart? || call.CoStart?) then s.(call := call) else s
    case Go(o) =>
      var (db', call') := StepCall(s.db, s.call, o);
      Sys(db', call',
          if s.call.PrExec? && call'.PrNext? && s.call.at < |s.ran| then s.ran[s.call.at := s.ran[s.call.at] + 1] else s.ran,
          if s.call.CoClaim? && call'.CoList? then Some(db') else s.claimed)
    case Crash => s.(call := Idle)
    case Touch => s.(db := s.db.TouchOrder())
    case GenerateBill => s.(db := Commit(s.db, s.db.CreateBill()))
    case BillTotals => s.(db := s.db.UpdateBillTotals())
    case IssueBill =>
      if s.db.bills == [] then s
      else s.(db := Commit(s.db, s.db.UpdateBillStatus(BillDraft, BillIssued, s.db.bills[0].version)))
  }

  function Run(s: Sys, moves: seq<Move>): Sys {
    if moves == [] then s else Next(Run(s, moves[..|moves| - 1]), moves[|moves| - 1])
  }

  // --- what holds however the calls crash ------------------------------------------------

  predicate Claimed(s: Step) { s.status == StepDone || s.status == StepProcessing }

  // The rows themselves.
  ghost predicate RowsOk(db: Db, ran: seq<nat>) {
    && |db.steps| == |ran| == STEPS
    && |db.trials| <= 1 && |db.inspections| <= 1 && |db.bills| <= 1
    && db.order.trialId == (if db.trials == [] then None else Some(db.trials[0]))
    && (db.steps[TRIAL].status == StepDone ==> db.trials != [])
    && (db.steps[INSPECT].status == StepDone ==> db.inspections != [])
    && (db.steps[BILL].status == StepDone ==> db.bills != [])
    && (forall k | 0 <= k < STEPS :: ran[k] == if db.steps[k].status in {StepDone, StepCompensated} then 1 else 0)
    && (forall k | 0 <= k < STEPS :: db.steps[k].status == StepCompensated ==> db.order.status in {Compensating, Aborted})
    && (db.order.status == Active ==> forall k | 0 <= k < STEPS :: Claimed(db.steps[k]))
  }

  // The steps before i are done or processing, those from j on as listed.
  predicate Walked(db: Db, steps: seq<Step>, i: nat, j: nat) {
    && |db.steps| == |steps| == STEPS && i <= j <= STEPS
    && (forall k | 0 <= k < i :: Claimed(db.steps[k]))
    && (forall k | j <= k < STEPS :: db.steps[k] == steps[k])
  }

  ghost predicate CallOk(db: Db, c: Call) {
    match c
    case PrReload => db.order.status == Provisioning
    case PrList(_) => db.order.status == Provisioning
    case PrNext(_, steps, i) => db.order.status == Provisioning && Walked(db, steps, i, i)
    case PrExec(_, steps, i, version) =>
      && db.order.status == Provisioning && i < STEPS && Walked(db, steps, i, i + 1)
      && db.steps[i].status == StepProcessing && db.steps[i].version == version
    case PrFailed(i, version) =>
      && db.order.status == Provisioning && i < |db.steps|
      && db.steps[i].status == StepProcessing && db.steps[i].version == version
    case PrBump => db.order.status == Provisioning
    case PrCurrent => db.order.status == Provisioning
    case PrRetry(_) => db.order.status == Provisioning
    case PrRefresh => db.order.status == Provisioning && forall k | 0 <= k < |db.steps| :: Claimed(db.steps[k])
    case PrActivate(_) => db.order.status == Provisioning && forall k | 0 <= k < |db.steps| :: Claimed(db.steps[k])
    case CoList => db.order.status == Compensating
    case CoNext(steps, left) => db.order.status == Compensating && Unmarked(db, steps, left)
    case CoBill(steps, left) => db.order.status == Compensating && Marking(db, steps, left)
    case CoVoid(steps, left, _) => db.order.status == Compensating && Marking(db, steps, left)
    case CoMark(steps, left) => db.order.status == Compensating && Marking(db, steps, left)
    case CoCurrent => db.order.status == Compensating
    case CoAbort(_) => db.order.status == Compensating
    case _ => true
  }

  // The first left steps are as listed.
  predicate Unmarked(db: Db, steps: seq<Step>, left: nat) {
    && |db.steps| == |steps| == STEPS && left <= STEPS
    && (forall k | 0 <= k < left :: db.steps[k] == steps[k])
  }

  predicate Marking(db: Db, steps: seq<Step>, left: nat) {
    Unmarked(db, steps, left) && 0 < left && steps[left - 1].status == StepDone
  }

  ghost predicate Inv(s: Sys) {
    RowsOk(s.db, s.ran) && CallOk(s.db, s.call)
  }

  lemma ProvisionableFrom(s: DeploymentStatus)
    ensures AssertTransition(deploymentTransitions, s, Provisioning) <==> s.Draft? || s.Provisioning? || s.PendingRetry?
  {
    match s {
      case Draft =>
      case Provisioning =>
      case Active =>
      case PendingRetry =>
      case Compensating =>
      case Aborted =>
    }
  }

  lemma CompensableFrom(s: DeploymentStatus)
    ensures AssertTransition(deploymentTransitions, s, Compensating)
            <==> s.Provisioning? || s.PendingRetry? || s.Active? || s.Compensating?
  {
    match s {
      case Draft =>
      case Provisioning =>
      case Active =>
      case PendingRetry =>
      case Compensating =>
      case Aborted =>
    }
  }

  // The claim of a call needs a legal source status.
  ghost predicate SourceOk(c: Call) {
    && (c.PrClaim? ==> c.order.status.Draft? || c.order.status.Provisioning? || c.order.status.PendingRetry?)
    && (c.CoClaim? ==> c.order.status.Provisioning? || c.order.status.PendingRetry? || c.order.status.Active?
                       || c.order.status.Compensating?)
  }

  function RanAfter(ran: seq<nat>, c: Call, c': Call): seq<nat> {
    if c.PrExec? && c'.PrNext? && c.at < |ran| then ran[c.at := ran[c.at] + 1] else ran
  }

  // A status the steps allow.
  lemma StatusRows(db: Db, ran: seq<nat>, dst: DeploymentStatus)
    requires RowsOk(db, ran) && !(db.order.status in {Compensating, Aborted})
    requires dst == Active ==> forall k | 0 <= k < STEPS :: Claimed(db.steps[k])
    ensures RowsOk(db.(order := db.order.(status := dst, version := db.order.version + 1)), ran)
  {
  }

  lemma CompensatingRows(db: Db, ran: seq<nat>, dst: DeploymentStatus)
    requires RowsOk(db, ran) && dst in {Compensating, Aborted}
    ensures RowsOk(db.(order := db.order.(status := dst, version := db.order.version + 1)), ran)
  {
  }

  lemma VersionRows(db: Db, ran: seq<nat>, retries: nat)
    requires RowsOk(db, ran)
    ensures RowsOk(db.(order := db.order.(retryCount := retries, version := db.order.version + 1)), ran)
  {
  }

  // A step moving between statuses that say nothing about its effect.
  lemma StepRows(db: Db, ran: seq<nat>, i: nat, step: Step)
    requires RowsOk(db, ran) && i < STEPS && !(db.steps[i].status in {StepDone, StepCompensated})
    requires step.status in {StepProcessing, StepFailed} && db.order.status != Active
    ensures RowsOk(db.(steps := db.steps[i := step]), ran)
  {
  }

  lemma CompensatedRows(db: Db, ran: seq<nat>, i: nat, step: Step)
    requires RowsOk(db, ran) && i < STEPS && db.steps[i].status == StepDone
    requires step.status == StepCompensated && db.order.status == Compensating
    ensures RowsOk(db.(steps := db.steps[i := step]), ran)
  {
  }

  lemma EffectRows(db: Db, ran: seq<nat>, order: Order, i: nat, fail: bool, freshId: Id)
    requires RowsOk(db, ran) && ExecStep(db, order, i, fail, freshId).Ok?
    ensures var db' := ExecStep(db, order, i, fail, freshId).value;
            && RowsOk(db', ran) && db'.steps == db.steps && db'.order.status == db.order.status
            && (i == TRIAL ==> db'.trials != []) && (i == INSPECT ==> db'.inspections != []) && (i == BILL ==> db'.bills != [])
  {
  }

  lemma DoneRows(db: Db, ran: seq<nat>, i: nat, step: Step)
    requires RowsOk(db, ran) && i < STEPS && db.steps[i].status == StepProcessing && step.status == StepDone
    requires (i == TRIAL ==> db.trials != []) && (i == INSPECT ==> db.inspections != []) && (i == BILL ==> db.bills != [])
    ensures RowsOk(db.(steps := db.steps[i := step]), ran[i := ran[i] + 1])
  {
  }

  // One commit of a call.
  lemma ProvisionStep(s: Sys, o: Oracle)
    requires Inv(s) && SourceOk(s.call)
    requires !s.call.PrNext? && !s.call.PrExec?
    requires s.call.PrStart? || s.call.PrClaim? || s.call.PrReload? || s.call.PrList? || s.call.PrFailed? || s.call.PrBump?
             || s.call.PrCurrent? || s.call.PrRetry? || s.call.PrRefresh? || s.call.PrActivate?
    ensures var (db', c') := StepCall(s.db, s.call, o); RowsOk(db', s.ran) && CallOk(db', c') && SourceOk(c')
  {
    hide RowsOk, AssertTransition, deploymentTransitions;
    match s.call {
      case PrStart => ProvisionableFrom(s.db.order.status);
      case PrClaim(order) =>
        if s.db.UpdateStatus(order.status, Provisioning, order.version).Ok? {
          StatusRows(s.db, s.ran, Provisioning);
        }
      case PrList(order) => assert |s.db.steps| == STEPS by { FiveSteps(s.db, s.ran); }
      case PrFailed(i, version) =>
        FiveSteps(s.db, s.ran);
        StepRows(s.db, s.ran, i, s.db.steps[i].(status := StepFailed, version := version + 1));
      case PrBump => VersionRows(s.db, s.ran, s.db.order.retryCount + 1);
      case PrRetry(version) =>
        if s.db.UpdateStatus(Provisioning, PendingRetry, version).Ok? {
          StatusRows(s.db, s.ran, PendingRetry);
        }
      case PrActivate(version) =>
        FiveSteps(s.db, s.ran);
        if s.db.UpdateStatus(Provisioning, Active, version).Ok? {
          StatusRows(s.db, s.ran, Active);
        }
      case _ =>
    }
  }

  lemma FiveSteps(db: Db, ran: seq<nat>)
    requires RowsOk(db, ran)
    ensures |db.steps| == |ran| == STEPS
  {
  }

  // Claiming the next step, or passing it by.
  lemma NextStepOk(s: Sys, o: Oracle)
    requires Inv(s) && s.call.PrNext?
    ensures var (db', c') := StepCall(s.db, s.call, o); RowsOk(db', s.ran) && CallOk(db', c') && SourceOk(c')
  {
    hide RowsOk;
    FiveSteps(s.db, s.ran);
    var (i, steps) := (s.call.at, s.call.steps);
    if i < STEPS {
      NoneCompensated(s.db, s.ran, i);
      if s.db.steps[i].status in {StepPending, StepFailed} {
        StepRows(s.db, s.ran, i, Step(StepProcessing, s.db.steps[i].attempts + 1, s.db.steps[i].version + 1));
      }
    }
  }

  lemma NoneCompensated(db: Db, ran: seq<nat>, i: nat)
    requires RowsOk(db, ran) && i < STEPS && db.order.status == Provisioning
    ensures db.steps[i].status != StepCompensated
  {
  }

  // Running a step and marking it done in one transaction.
  lemma ExecStepOk(s: Sys, o: Oracle)
    requires Inv(s) && s.call.PrExec?
    ensures var (db', c') := StepCall(s.db, s.call, o);
            RowsOk(db', RanAfter(s.ran, s.call, c')) && CallOk(db', c') && SourceOk(c')
  {
    hide RowsOk, ExecStep;
    FiveSteps(s.db, s.ran);
    var i := s.call.at;
    if ExecStep(s.db, s.call.order, i, o.fail, o.freshId).Ok? {
      var effected := ExecStep(s.db, s.call.order, i, o.fail, o.freshId).value;
      EffectRows(s.db, s.ran, s.call.order, i, o.fail, o.freshId);
      DoneRows(effected, s.ran, i, effected.steps[i].(status := StepDone, version := s.call.version + 1));
    }
  }

  lemma CompensateStep(s: Sys, o: Oracle)
    requires Inv(s) && SourceOk(s.call)
    requires s.call.CoStart? || s.call.CoClaim? || s.call.CoList? || s.call.CoBill? || s.call.CoMark?
             || s.call.CoCurrent? || s.call.CoAbort?
    ensures var (db', c') := StepCall(s.db, s.call, o); RowsOk(db', s.ran) && CallOk(db', c') && SourceOk(c')
  {
    hide RowsOk, AssertTransition, deploymentTransitions;
    FiveSteps(s.db, s.ran);
    match s.call {
      case CoStart => CompensableFrom(s.db.order.status);
      case CoClaim(order) =>
        if s.db.UpdateStatus(order.status, Compensating, order.version).Ok? {
          CompensatingRows(s.db, s.ran, Compensating);
        }
      case CoMark(steps, left) =>
        CompensatedRows(s.db, s.ran, left - 1,
                        s.db.steps[left - 1].(status := StepCompensated, version := s.db.steps[left - 1].version + 1));
      case CoAbort(version) =>
        if s.db.UpdateStatus(Compensating, Aborted, version).Ok? {
          CompensatingRows(s.db, s.ran, Aborted);
        }
      case _ =>
    }
  }

  lemma UndoStepOk(s: Sys, o: Oracle)
    requires Inv(s) && (s.call.CoNext? || s.call.CoVoid?)
    ensures var (db', c') := StepCall(s.db, s.call, o); RowsOk(db', s.ran) && CallOk(db', c') && SourceOk(c')
  {
    hide RowsOk;
    FiveSteps(s.db, s.ran);
    UndoRows(s.db, s.ran);
    match s.call {
      case CoVoid(_, _, version) =>
        if s.db.UpdateBillStatus(BillDraft, BillVoided, version).Ok? {
          BillRows(s.db, s.ran, BillVoided);
        }
      case CoNext(_, _) =>
    }
  }

  lemma UndoRows(db: Db, ran: seq<nat>)
    requires RowsOk(db, ran)
    ensures RowsOk(db.CancelInspections(), ran) && RowsOk(db.UnbindAllDevices(), ran)
  {
  }

  lemma BillRows(db: Db, ran: seq<nat>, status: BillStatus)
    requires RowsOk(db, ran) && db.bills != []
    ensures RowsOk(db.(bills := db.bills[0 := Bill(status, db.bills[0].version + 1)]), ran)
  {
  }

  lemma GoKeeps(s: Sys, o: Oracle)
    requires Inv(s) && SourceOk(s.call)
    ensures Inv(Next(s, Go(o))) && SourceOk(Next(s, Go(o)).call)
  {
    hide RowsOk, CallOk, SourceOk, StepCall;
    match s.call {
      case PrNext(_, _, _) => NextStepOk(s, o);
      case PrExec(_, _, _, _) => ExecStepOk(s, o);
      case CoNext(_, _) => UndoStepOk(s, o);
      case CoVoid(_, _, _) => UndoStepOk(s, o);
      case CoStart => CompensateStep(s, o);
      case CoClaim(_) => CompensateStep(s, o);
      case CoList => CompensateStep(s, o);
      case CoBill(_, _) => CompensateStep(s, o);
      case CoMark(_, _) => CompensateStep(s, o);
      case CoCurrent => CompensateStep(s, o);
      case CoAbort(_) => CompensateStep(s, o);
      case Idle => StaysPut(s, o);
      case Returned(_) => StaysPut(s, o);
      case _ => ProvisionStep(s, o);
    }
  }

  lemma StaysPut(s: Sys, o: Oracle)
    requires AtRest(s.call)
    ensures StepCall(s.db, s.call, o) == (s.db, s.call)
  {
  }

  // The surroundings change no step and no status of the order.
  lemma AroundKeeps(s: Sys, m: Move)
    requires Inv(s) && (m.Touch? || m.GenerateBill? || m.BillTotals? || m.IssueBill?)
    ensures Inv(Next(s, m))
  {
    hide RowsOk;
    var db' := Next(s, m).db;
    match m {
      case Touch => VersionRows(s.db, s.ran, s.db.order.retryCount);
      case BillTotals =>
        if s.db.bills != [] {
          BillRows(s.db, s.ran, s.db.bills[0].status);
        }
      case IssueBill =>
        if s.db.bills != [] && s.db.UpdateBillStatus(BillDraft, BillIssued, s.db.bills[0].version).Ok? {
          BillRows(s.db, s.ran, BillIssued);
        }
      case GenerateBill =>
        if s.db.bills == [] {
          NewBillRows(s.db, s.ran);
        }
    }
    SameSteps(s.db, db', s.call);
  }

  lemma NewBillRows(db: Db, ran: seq<nat>)
    requires RowsOk(db, ran) && db.bills == []
    ensures RowsOk(db.(bills := [Bill(BillDraft, 1)]), ran)
  {
  }

  lemma SameSteps(db: Db, db': Db, c: Call)
    requires db'.steps == db.steps && db'.order.status == db.order.status && CallOk(db, c)
    ensures CallOk(db', c)
  {
  }

  lemma NextKeeps(s: Sys, m: Move)
    requires Inv(s) && SourceOk(s.call)
    ensures Inv(Next(s, m)) && SourceOk(Next(s, m).call)
  {
    hide RowsOk, StepCall;
    match m {
      case Go(o) => GoKeeps(s, o);
      case Start(_) =>
      case Crash =>
      case _ => AroundKeeps(s, m);
    }
  }

  lemma {:induction false} RunKeeps(devices: set<Id>, moves: seq<Move>)
    ensures Inv(Run(Init(devices), moves)) && SourceOk(Run(Init(devices), moves).call)
  {
    hide Next;
    if moves != [] {
      RunKeeps(devices, moves[..|moves| - 1]);
      NextKeeps(Run(Init(devices), moves[..|moves| - 1]), moves[|moves| - 1]);
    }
  }
}
