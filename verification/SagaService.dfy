// Provision and Compensate as they are written, on rows updated in place. Each
// call is proved to be the program of SagaMachine run without interruption; os
// records what its steps were given.
module SagaService {
  import opened Common
  import opened Status
  import opened SagaDb
  import opened SagaMachine
  import SagaCalm
  import SagaUndo
  import Calls = ProvisionCalls

  // A call run through its steps with nobody else moving.
  function Alone(db: Db, c: Call, os: seq<Oracle>): (Db, Call) {
    if os == [] then (db, c)
    else
      var (db', c') := Alone(db, c, os[..|os| - 1]);
      StepCall(db', c', os[|os| - 1])
  }

  lemma Begin(db: Db, c: Call)
    ensures Alone(db, c, []) == (db, c)
  {
  }

  // One more step of the call: the trace grows by it.
  lemma Take(db: Db, c: Call, os: seq<Oracle>, o: Oracle, db1: Db, c1: Call, db2: Db, c2: Call)
    requires Alone(db, c, os) == (db1, c1) && StepCall(db1, c1, o) == (db2, c2)
    ensures Alone(db, c, os + [o]) == (db2, c2)
  {
    assert (os + [o])[..|os|] == os;
  }

  lemma {:induction false} AloneConcat(db: Db, c: Call, a: seq<Oracle>, b: seq<Oracle>)
    ensures var (db1, c1) := Alone(db, c, a); Alone(db, c, a + b) == Alone(db1, c1, b)
  {
    hide StepCall;
    if b == [] {
      assert a + b == a;
    } else {
      assert (a + b)[..|a + b| - 1] == a + b[..|b| - 1];
      AloneConcat(db, c, a, b[..|b| - 1]);
    }
  }

  function Steps(os: seq<Oracle>): (moves: seq<Move>) {
    seq(|os|, i requires 0 <= i < |os| => Go(os[i]))
  }

  // A call stepping alone is a run of the machine, so what holds of every run
  // holds of these calls.
  lemma {:induction false} AloneIsARun(s: Sys, os: seq<Oracle>)
    ensures (Run(s, Steps(os)).db, Run(s, Steps(os)).call) == Alone(s.db, s.call, os)
  {
    hide StepCall;
    if os != [] {
      AloneIsARun(s, os[..|os| - 1]);
      assert Steps(os)[..|os| - 1] == Steps(os[..|os| - 1]);
    }
  }

  // Made between calls of a crash-free sequential run, a call extends it to
  // another one.
  lemma {:induction false} CallsStayCalm(devices: set<Id>, moves: seq<Move>, call: Call, os: seq<Oracle>)
    requires SagaCalm.CalmRun(devices, moves) && AtRest(Run(Init(devices), moves).call) && (call.PrStart? || call.CoStart?)
    ensures SagaCalm.CalmRun(devices, moves + [Start(call)] + Steps(os))
    ensures (Run(Init(devices), moves + [Start(call)] + Steps(os)).db, Run(Init(devices), moves + [Start(call)] + Steps(os)).call)
            == Alone(Run(Init(devices), moves).db, call, os)
  {
    hide StepCall, Next, SagaCalm.Calm;
    var all := moves + [Start(call)] + Steps(os);
    if os == [] {
      assert all == moves + [Start(call)] && all[..|moves|] == moves;
      CalmStart(Run(Init(devices), moves), call);
    } else {
      var front := os[..|os| - 1];
      CallsStayCalm(devices, moves, call, front);
      assert all[..|all| - 1] == moves + [Start(call)] + Steps(front);
      CalmGo(Run(Init(devices), moves + [Start(call)] + Steps(front)), os[|os| - 1]);
    }
  }

  lemma CalmStart(s: Sys, call: Call)
    requires AtRest(s.call) && (call.PrStart? || call.CoStart?)
    ensures SagaCalm.Calm(s, Start(call)) && Next(s, Start(call)).db == s.db && Next(s, Start(call)).call == call
  {
  }

  lemma CalmGo(s: Sys, o: Oracle)
    ensures SagaCalm.Calm(s, Go(o))
    ensures (Next(s, Go(o)).db, Next(s, Go(o)).call) == StepCall(s.db, s.call, o)
  {
  }

  // From the call to its return: Compensate on any order of five steps.
  lemma {:induction false} CompensateCall(before: Db, os: seq<Oracle>)
    requires |before.steps| == STEPS
    ensures var (after, c) := Alone(before, CoStart, os); SagaUndo.LoneAt(before, after, c)
  {
    hide StepCall, SagaUndo.LoneAt;
    if os == [] {
      CallBegins(before);
    } else {
      CompensateCall(before, os[..|os| - 1]);
      var (db, c) := Alone(before, CoStart, os[..|os| - 1]);
      SagaUndo.LoneAtStep(before, db, c, os[|os| - 1]);
    }
  }

  lemma CallBegins(before: Db)
    requires |before.steps| == STEPS
    ensures SagaUndo.LoneAt(before, before, CoStart)
  {
  }

  lemma CompensateReturns(before: Db, os: seq<Oracle>, after: Db, failure: Option<Error>)
    requires |before.steps| == STEPS && Alone(before, CoStart, os) == (after, Returned(failure))
    ensures SagaUndo.Compensated(before, after, failure)
  {
    hide Alone;
    CompensateCall(before, os);
  }

  function FailureOf(r: Result<Db>): Option<Error> {
    if r.Ok? then None else Some(r.error)
  }

  // The order's rows.
  class Store {
    var order: Order
    var steps: seq<Step>
    var devices: set<Id>
    var trials: seq<Id>
    var inspections: seq<InspectionStatus>
    var bills: seq<Bill>

    // CreateOrder and its five step rows.
    constructor (planned: set<Id>)
      ensures Tables() == NewOrder(planned)
    {
      order, devices, trials, inspections, bills := Order(Draft, None, 0, 1), planned, [], [], [];
      var rows: seq<Step> := [];
      while |rows| < STEPS
        invariant |rows| <= STEPS && forall k | 0 <= k < |rows| :: rows[k] == Step(StepPending, 0, 1)
        decreases STEPS - |rows|
      {
        rows := rows + [Step(StepPending, 0, 1)];
      }
      steps := rows;
    }

    ghost function Tables(): Db
      reads this
    {
      Db(order, steps, devices, trials, inspections, bills)
    }

    method UpdateStatus(src: DeploymentStatus, dst: DeploymentStatus, version: int) returns (failure: Option<Error>)
      modifies this`order
      ensures failure == FailureOf(old(Tables()).UpdateStatus(src, dst, version))
      ensures Tables() == Commit(old(Tables()), old(Tables()).UpdateStatus(src, dst, version))
    {
      if order.status != src || order.version != version {
        return Some(VersionConflict);
      }
      order := order.(status := dst, version := version + 1);
      return None;
    }

    method LinkTrial(trialId: Id, version: int) returns (failure: Option<Error>)
      modifies this`order
      ensures failure == FailureOf(old(Tables()).LinkTrial(trialId, version))
      ensures Tables() == Commit(old(Tables()), old(Tables()).LinkTrial(trialId, version))
    {
      if order.version != version {
        return Some(VersionConflict);
      }
      order := order.(trialId := Some(trialId), version := version + 1);
      return None;
    }

    method BumpRetry()
      modifies this`order
      ensures Tables() == old(Tables()).BumpRetry()
    {
      order := order.(retryCount := order.retryCount + 1, version := order.version + 1);
    }

    method MarkProcessing(i: nat, version: int) returns (failure: Option<Error>)
      modifies this`steps
      ensures failure == FailureOf(old(Tables()).MarkProcessing(i, version))
      ensures Tables() == Commit(old(Tables()), old(Tables()).MarkProcessing(i, version))
    {
      if i >= |steps| || steps[i].version != version || steps[i].status !in {StepPending, StepFailed} {
        return Some(VersionConflict);
      }
      steps := steps[i := Step(StepProcessing, steps[i].attempts + 1, version + 1)];
      return None;
    }

    method Mark(i: nat, status: StepStatus, version: int) returns (failure: Option<Error>)
      modifies this`steps
      ensures failure == FailureOf(old(Tables()).Mark(i, status, version))
      ensures Tables() == Commit(old(Tables()), old(Tables()).Mark(i, status, version))
    {
      if i >= |steps| || steps[i].version != version {
        return Some(VersionConflict);
      }
      steps := steps[i := steps[i].(status := status, version := version + 1)];
      return None;
    }

    method CreateTrial(id: Id) returns (failure: Option<Error>)
      modifies this`trials
      ensures failure == FailureOf(old(Tables()).CreateTrial(id))
      ensures Tables() == Commit(old(Tables()), old(Tables()).CreateTrial(id))
    {
      if trials != [] {
        return Some(AlreadyExists);
      }
      trials := [id];
      return None;
    }

    method CreateInspection()
      modifies this`inspections
      ensures Tables() == old(Tables()).CreateInspection()
    {
      inspections := inspections + [Dispatched];
    }

    method CancelInspections()
      modifies this`inspections
      ensures Tables() == old(Tables()).CancelInspections()
    {
      ghost var was := inspections;
      var i := 0;
      while i < |inspections|
        invariant i <= |inspections| == |was|
        invariant forall k | 0 <= k < i :: inspections[k] == Db.Cancelling(was)[k]
        invariant forall k | i <= k < |was| :: inspections[k] == was[k]
      {
        if inspections[i] == Dispatched {
          inspections := inspections[i := Cancelled];
        }
        i := i + 1;
      }
      assert inspections == Db.Cancelling(was);
    }

    method CreateBill() returns (failure: Option<Error>)
      modifies this`bills
      ensures failure == FailureOf(old(Tables()).CreateBill())
      ensures Tables() == Commit(old(Tables()), old(Tables()).CreateBill())
    {
      if bills != [] {
        return Some(AlreadyExists);
      }
      bills := [Bill(BillDraft, 1)];
      return None;
    }

    method UpdateBillStatus(src: BillStatus, dst: BillStatus, version: int) returns (failure: Option<Error>)
      modifies this`bills
      ensures failure == FailureOf(old(Tables()).UpdateBillStatus(src, dst, version))
      ensures Tables() == Commit(old(Tables()), old(Tables()).UpdateBillStatus(src, dst, version))
    {
      if bills == [] || bills[0].version != version || bills[0].status != src {
        return Some(VersionConflict);
      }
      bills := bills[0 := Bill(dst, version + 1)];
      return None;
    }

    method UnbindAllDevices()
      modifies this`devices
      ensures Tables() == old(Tables()).UnbindAllDevices()
    {
      devices := {};
    }

    // Rollback.
    method Restore(saved: Db)
      modifies this
      ensures Tables() == saved
    {
      order, steps, devices := saved.order, saved.steps, saved.devices;
      trials, inspections, bills := saved.trials, saved.inspections, saved.bills;
    }

    // A copy of the rows to roll back to.
    method Save() returns (saved: Db)
      ensures saved == Tables()
    {
      return Db(order, steps, devices, trials, inspections, bills);
    }
  }

  class Service {
    const store: Store

    constructor (store: Store)
      ensures this.store == store
    {
      this.store := store;
    }

    // execStep. Writes made before a failure stay until the caller rolls back.
    method RunEffect(o: Order, i: nat, given: Oracle) returns (failure: Option<Error>)
      modifies store
      ensures failure == FailureOf(ExecStep(old(store.Tables()), o, i, given.fail, given.freshId))
      ensures failure == None ==> store.Tables() == ExecStep(old(store.Tables()), o, i, given.fail, given.freshId).value
    {
      if given.fail {
        return Some(Driver);
      }
      failure := None;
      if i == BIND {
        if store.devices == {} {
          return Some(Incomplete);
        }
      } else if i == TRIAL {
        if store.trials == [] {
          failure := store.CreateTrial(given.freshId);
          if failure == None {
            failure := store.LinkTrial(given.freshId, o.version);
          }
        }
      } else if i == INSPECT {
        if store.inspections == [] {
          store.CreateInspection();
        }
      } else if i == BILL {
        if store.bills == [] {
          failure := store.CreateBill();
        }
      }
    }

    // The transaction around a step.
    method RunStep(o: Order, i: nat, version: int, given: Oracle) returns (failure: Option<Error>)
      modifies store
      ensures failure == FailureOf(ExecAndMark(old(store.Tables()), o, i, version, given.fail, given.freshId))
      ensures store.Tables() == Commit(old(store.Tables()), ExecAndMark(old(store.Tables()), o, i, version, given.fail, given.freshId))
    {
      hide ExecStep;
      var saved := store.Save();
      failure := RunEffect(o, i, given);
      if failure == None {
        failure := store.Mark(i, StepDone, version);
      }
      if failure != None {
        store.Restore(saved);
      }
    }

    // Provision. given supplies, for each step, whether its references check out
    // and the uuid it would use.
    method Provision(given: seq<Oracle>) returns (failure: Option<Error>, ghost os: seq<Oracle>)
      requires |given| == |store.steps| == STEPS
      modifies store
      ensures Alone(old(store.Tables()), PrStart, os) == (store.Tables(), Returned(failure))
      ensures Calls.ProvisionReturns(old(store.Tables()), given, store.Tables(), failure)
    {
      hide Alone, AssertTransition, deploymentTransitions, Calls.WalkedTo, Calls.StoppedAt, Calls.Provisioned, Calls.FailsAt;
      ProvisionableFrom(store.order.status);
      ghost var db0, o := store.Tables(), given[0];
      Begin(db0, PrStart);
      os := [] + [o];
      var order := store.order;
      if order.status == Active {
        Take(db0, PrStart, [], o, db0, PrStart, db0, Returned(None));
        return None, os;
      }
      if order.status == Aborted || order.status == Compensating
         || !AssertTransition(deploymentTransitions, order.status, Provisioning) {
        Take(db0, PrStart, [], o, db0, PrStart, db0, Returned(Some(IllegalTransition)));
        return Some(IllegalTransition), os;
      }
      Take(db0, PrStart, [], o, db0, PrStart, db0, PrClaim(order));
      failure := store.UpdateStatus(order.status, Provisioning, order.version);
      ghost var db1 := store.Tables();
      if failure != None {
        Take(db0, PrStart, os, o, db0, PrClaim(order), db1, Returned(failure));
        os := os + [o];
        return;
      }
      Take(db0, PrStart, os, o, db0, PrClaim(order), db1, PrReload);
      os := os + [o];
      order := store.order;
      Take(db0, PrStart, os, o, db1, PrReload, db1, PrList(order));
      os := os + [o];
      Take(db0, PrStart, os, o, db1, PrList(order), db1, PrNext(order, store.steps, 0));
      os := os + [o];
      Calls.ClaimWalks(db0, given);
      ghost var rest;
      failure, rest := WalkSteps(order, store.steps, given, db0);
      AloneConcat(db0, PrStart, os, rest);
      os := os + rest;
    }

    // The loop of Provision over the listed steps, and what follows it; db is what
    // the call found.
    method WalkSteps(order: Order, listed: seq<Step>, given: seq<Oracle>, ghost db: Db)
      returns (failure: Option<Error>, ghost os: seq<Oracle>)
      requires |given| == |listed| == STEPS && listed == db.steps && order.version == db.order.version + 1
      requires Calls.WalkedTo(db, given, 0, store.Tables())
      modifies store
      ensures Alone(old(store.Tables()), PrNext(order, listed, 0), os) == (store.Tables(), Returned(failure))
      ensures Calls.WalkEnds(db, given, store.Tables(), failure)
    {
      hide Alone, StepCall, Calls.WalkedTo, Calls.StoppedAt, Calls.Provisioned, Calls.FailsAt, Calls.GivenUp;
      ghost var db0, c0 := store.Tables(), PrNext(order, listed, 0);
      Begin(db0, c0);
      os := [];
      var i := 0;
      while i < STEPS
        invariant i <= STEPS
        invariant Alone(db0, c0, os) == (store.Tables(), PrNext(order, listed, i))
        invariant Calls.WalkedTo(db, given, i, store.Tables()) && forall k | 0 <= k < i :: !Calls.FailsAt(db, given, k)
      {
        var failed;
        ghost var rest;
        ghost var mid := store.Tables();
        failed, rest := WalkStep(order, listed, i, given[i], given, db);
        AloneConcat(db0, c0, os, rest);
        os := os + rest;
        if failed {
          Calls.RunningRow(db, given, i, mid, store.Tables());
          failure, rest := GiveUp(i, listed[i].version + 1, given[i]);
          Calls.StopsThere(db, given, i, mid, store.Tables());
          AloneConcat(db0, c0, os, rest);
          os := os + rest;
          return;
        }
        i := i + 1;
      }
      ghost var rest;
      Calls.WalkedIsProvisioning(db, given, store.Tables());
      ghost var walked := store.Tables();
      failure, rest := Activate(order, listed, given[0]);
      Calls.WalkedThrough(db, given, walked, store.Tables());
      AloneConcat(db0, c0, os, rest);
      os := os + rest;
    }

    // One turn of the loop: pass the step by, skip it, or claim and run it.
    method WalkStep(order: Order, listed: seq<Step>, i: nat, o: Oracle, ghost given: seq<Oracle>, ghost db: Db)
      returns (failed: bool, ghost os: seq<Oracle>)
      requires i < |listed| == |given| == STEPS && o == given[i]
      requires listed == db.steps && order.version == db.order.version + 1
      requires Calls.WalkedTo(db, given, i, store.Tables())
      modifies store
      ensures failed <==> Calls.FailsAt(db, given, i)
      ensures if failed then |old(store.steps)| == STEPS && store.Tables() == Calls.InProgress(old(store.Tables()), i)
              else Calls.WalkedTo(db, given, i + 1, store.Tables())
      ensures Alone(old(store.Tables()), PrNext(order, listed, i), os)
              == (store.Tables(), if failed then PrFailed(i, listed[i].version + 1) else PrNext(order, listed, i + 1))
    {
      hide Alone, ExecAndMark, Calls.WalkedTo;
      ghost var db0, c0 := store.Tables(), PrNext(order, listed, i);
      Begin(db0, c0);
      os, failed := [] + [o], false;
      if !Calls.Runs(db.steps[i]) {
        Calls.PassedBy(db, given, i, db0);
      } else {
        Calls.StepClaimed(db, given, i, db0);
        Calls.StepRuns(db, given, i, db0, order);
      }
      if listed[i].status == StepDone || listed[i].status == StepCompensated {
        Take(db0, c0, [], o, db0, c0, db0, PrNext(order, listed, i + 1));
        return;
      }
      var conflict := store.MarkProcessing(i, listed[i].version);
      ghost var db1 := store.Tables();
      if conflict != None {
        Take(db0, c0, [], o, db0, c0, db1, PrNext(order, listed, i + 1));
        return;
      }
      var version := listed[i].version + 1;
      Take(db0, c0, [], o, db0, c0, db1, PrExec(order, listed, i, version));
      var failure := RunStep(order, i, version, o);
      failed := failure != None;
      Take(db0, c0, os, o, db1, PrExec(order, listed, i, version),
           store.Tables(), if failed then PrFailed(i, version) else PrNext(order, listed, i + 1));
      os := os + [o];
    }

    // After a failed step: mark it, note the retry, fall back to pending_retry.
    // Errors of these updates are ignored.
    method GiveUp(i: nat, version: int, o: Oracle) returns (failure: Option<Error>, ghost os: seq<Oracle>)
      requires i < |store.steps| && store.steps[i].version == version && store.order.status == Provisioning
      modifies store
      ensures Alone(old(store.Tables()), PrFailed(i, version), os) == (store.Tables(), Returned(failure))
      ensures failure == Some(Retryable) && Calls.GivenUp(old(store.Tables()), i, store.Tables())
    {
      hide Alone;
      ghost var db0, c0 := store.Tables(), PrFailed(i, version);
      Begin(db0, c0);
      var _ := store.Mark(i, StepFailed, version);
      ghost var db1 := store.Tables();
      Take(db0, c0, [], o, db0, c0, db1, PrBump);
      store.BumpRetry();
      ghost var db2 := store.Tables();
      Take(db0, c0, [] + [o], o, db1, PrBump, db2, PrCurrent);
      var current := store.order;
      Take(db0, c0, [] + [o] + [o], o, db2, PrCurrent, db2, PrRetry(current.version));
      var _ := store.UpdateStatus(Provisioning, PendingRetry, current.version);
      Take(db0, c0, [] + [o] + [o] + [o], o, db2, PrRetry(current.version), store.Tables(), Returned(Some(Retryable)));
      failure, os := Some(Retryable), [] + [o] + [o] + [o] + [o];
    }

    // After the last step: reload the order and activate it.
    method Activate(order: Order, listed: seq<Step>, o: Oracle) returns (failure: Option<Error>, ghost os: seq<Oracle>)
      requires store.order.status == Provisioning
      modifies store
      ensures Alone(old(store.Tables()), PrNext(order, listed, STEPS), os) == (store.Tables(), Returned(failure))
      ensures failure == None
      ensures store.Tables() == old(store.Tables()).(
                order := old(store.order).(status := Active, version := old(store.order).version + 1))
    {
      hide Alone;
      ghost var db0, c0 := store.Tables(), PrNext(order, listed, STEPS);
      Begin(db0, c0);
      Take(db0, c0, [], o, db0, c0, db0, PrRefresh);
      var reloaded := store.order;
      Take(db0, c0, [] + [o], o, db0, PrRefresh, db0, PrActivate(reloaded.version));
      failure := store.UpdateStatus(Provisioning, Active, reloaded.version);
      Take(db0, c0, [] + [o] + [o], o, db0, PrActivate(reloaded.version), store.Tables(), Returned(failure));
      os := [] + [o] + [o] + [o];
    }

    method Compensate(o: Oracle) returns (failure: Option<Error>, ghost os: seq<Oracle>)
      requires |store.steps| == STEPS
      modifies store
      ensures Alone(old(store.Tables()), CoStart, os) == (store.Tables(), Returned(failure))
      ensures SagaUndo.Compensated(old(store.Tables()), store.Tables(), failure)
    {
      failure, os := CompensateSteps(o);
      CompensateReturns(old(store.Tables()), os, store.Tables(), failure);
    }

    // The statements of Compensate.
    method CompensateSteps(o: Oracle) returns (failure: Option<Error>, ghost os: seq<Oracle>)
      requires |store.steps| == STEPS
      modifies store
      ensures Alone(old(store.Tables()), CoStart, os) == (store.Tables(), Returned(failure))
    {
      hide Alone, AssertTransition, deploymentTransitions;
      ghost var db0 := store.Tables();
      Begin(db0, CoStart);
      os := [] + [o];
      var order := store.order;
      if order.status == Aborted {
        Take(db0, CoStart, [], o, db0, CoStart, db0, Returned(None));
        return None, os;
      }
      if !AssertTransition(deploymentTransitions, order.status, Compensating) {
        Take(db0, CoStart, [], o, db0, CoStart, db0, Returned(Some(IllegalTransition)));
        return Some(IllegalTransition), os;
      }
      Take(db0, CoStart, [], o, db0, CoStart, db0, CoClaim(order));
      failure := store.UpdateStatus(order.status, Compensating, order.version);
      ghost var db1 := store.Tables();
      if failure != None {
        Take(db0, CoStart, os, o, db0, CoClaim(order), db1, Returned(failure));
        os := os + [o];
        return;
      }
      Take(db0, CoStart, os, o, db0, CoClaim(order), db1, CoList);
      os := os + [o];
      Take(db0, CoStart, os, o, db1, CoList, db1, CoNext(store.steps, STEPS));
      os := os + [o];
      ghost var rest;
      failure, rest := UndoAll(store.steps, o);
      AloneConcat(db0, CoStart, os, rest);
      os := os + rest;
    }

    // The loop of Compensate, last step first, and the final update.
    method UndoAll(listed: seq<Step>, o: Oracle) returns (failure: Option<Error>, ghost os: seq<Oracle>)
      requires |listed| == STEPS
      modifies store
      ensures Alone(old(store.Tables()), CoNext(listed, STEPS), os) == (store.Tables(), Returned(failure))
    {
      hide Alone;
      ghost var db0, c0 := store.Tables(), CoNext(listed, STEPS);
      Begin(db0, c0);
      os := [];
      var left: nat := STEPS;
      while 0 < left
        invariant left <= STEPS
        invariant Alone(db0, c0, os) == (store.Tables(), CoNext(listed, left))
      {
        ghost var rest := UndoOne(listed, left, o);
        AloneConcat(db0, c0, os, rest);
        os := os + rest;
        left := left - 1;
      }
      ghost var db1 := store.Tables();
      Take(db0, c0, os, o, db1, CoNext(listed, 0), db1, CoCurrent);
      os := os + [o];
      var current := store.order;
      Take(db0, c0, os, o, db1, CoCurrent, db1, CoAbort(current.version));
      os := os + [o];
      // A version conflict here is tolerated.
      var _ := store.UpdateStatus(Compensating, Aborted, current.version);
      Take(db0, c0, os, o, db1, CoAbort(current.version), store.Tables(), Returned(None));
      os := os + [o];
      failure := None;
    }

    // compensateStep and the mark after it, for a step listed as done.
    method UndoOne(listed: seq<Step>, left: nat, o: Oracle) returns (ghost os: seq<Oracle>)
      requires 0 < left <= |listed| == STEPS
      modifies store
      ensures Alone(old(store.Tables()), CoNext(listed, left), os) == (store.Tables(), CoNext(listed, left - 1))
    {
      hide Alone;
      ghost var db0, c0 := store.Tables(), CoNext(listed, left);
      Begin(db0, c0);
      os := [];
      if listed[left - 1].status != StepDone {
        Take(db0, c0, os, o, db0, c0, db0, CoNext(listed, left - 1));
        os := os + [o];
        return;
      }
      if left - 1 == BILL {
        os := VoidBill(listed, left, o);
      } else {
        if left - 1 == INSPECT {
          store.CancelInspections();
        } else if left - 1 == BIND {
          store.UnbindAllDevices();
        }
        Take(db0, c0, os, o, db0, c0, store.Tables(), CoMark(listed, left));
        os := os + [o];
      }
      ghost var db1 := store.Tables();
      var _ := store.Mark(left - 1, StepCompensated, listed[left - 1].version);
      Take(db0, c0, os, o, db1, CoMark(listed, left), store.Tables(), CoNext(listed, left - 1));
      os := os + [o];
    }

    // The bill's compensating action; a bill no longer a draft is left alone.
    method VoidBill(listed: seq<Step>, left: nat, o: Oracle) returns (ghost os: seq<Oracle>)
      requires left == |listed| == STEPS && listed[BILL].status == StepDone
      modifies store
      ensures Alone(old(store.Tables()), CoNext(listed, left), os) == (store.Tables(), CoMark(listed, left))
    {
      hide Alone;
      ghost var db0, c0 := store.Tables(), CoNext(listed, left);
      Begin(db0, c0);
      Take(db0, c0, [], o, db0, c0, db0, CoBill(listed, left));
      os := [] + [o];
      if store.bills == [] {
        Take(db0, c0, os, o, db0, CoBill(listed, left), db0, CoMark(listed, left));
        os := os + [o];
        return;
      }
      var version := store.bills[0].version;
      Take(db0, c0, os, o, db0, CoBill(listed, left), db0, CoVoid(listed, left, version));
      os := os + [o];
      var _ := store.UpdateBillStatus(BillDraft, BillVoided, version);
      Take(db0, c0, os, o, db0, CoVoid(listed, left, version), store.Tables(), CoMark(listed, left));
      os := os + [o];
    }
  }
}
