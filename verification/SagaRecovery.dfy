// Recovery after a restart: every interrupted order is provisioned again, and
// one that fails does not stop the others.
module SagaRecovery {
  import opened Common
  import opened Status
  import opened SagaDb
  import opened SagaMachine
  import opened SagaService
  import opened ProvisionCalls

  // A Provision nobody interrupts: its version snapshots stay current, so it
  // settles the order one way or the other.
  ghost predicate LoneOk(s: Sys) {
    match s.call
    case PrStart => s.db.order.status in {Draft, Provisioning, PendingRetry, Active}
    case PrClaim(order) => order == s.db.order
    case PrRetry(version) => version == s.db.order.version
    case PrActivate(version) => version == s.db.order.version
    case Returned(failure) =>
      (failure == None && s.db.order.status == Active)
      || (failure == Some(Retryable) && s.db.order.status == PendingRetry)
    case PrReload => true
    case PrList(_) => true
    case PrNext(_, _, _) => true
    case PrExec(_, _, _, _) => true
    case PrFailed(_, _) => true
    case PrBump => true
    case PrCurrent => true
    case PrRefresh => true
    case _ => false
  }

  lemma LoneStep(s: Sys, o: Oracle)
    requires CallOk(s.db, s.call) && LoneOk(s)
    ensures LoneOk(Next(s, Go(o)))
  {
    hide AssertTransition, deploymentTransitions, ExecAndMark;
    if s.call.PrStart? {
      ProvisionableFrom(s.db.order.status);
    }
  }

  lemma {:induction false} LoneRun(s: Sys, os: seq<Oracle>)
    requires Inv(s) && SourceOk(s.call) && LoneOk(s)
    ensures var s' := Run(s, Steps(os)); Inv(s') && SourceOk(s'.call) && LoneOk(s')
  {
    hide Next, LoneOk, RowsOk, SourceOk;
    if os != [] {
      LoneRun(s, os[..|os| - 1]);
      assert Steps(os)[..|os| - 1] == Steps(os[..|os| - 1]);
      var front := Run(s, Steps(os[..|os| - 1]));
      LoneStep(front, os[|os| - 1]);
      NextKeeps(front, Go(os[|os| - 1]));
    }
  }

  // However its steps fail, an uninterrupted Provision of an order that is not
  // being compensated leaves it active or waiting for a retry, and says which.
  lemma ProvisionSettles(db: Db, ran: seq<nat>, os: seq<Oracle>, failure: Option<Error>)
    requires RowsOk(db, ran) && db.order.status in {Draft, Provisioning, PendingRetry, Active}
    requires Alone(db, PrStart, os).1 == Returned(failure)
    ensures var after := Alone(db, PrStart, os).0;
            && (failure == None <==> after.order.status == Active)
            && (failure == Some(Retryable) <==> after.order.status == PendingRetry)
            && after.order.status in {Active, PendingRetry}
            && exists ran' :: RowsOk(after, ran')
  {
    hide RowsOk, Run, Alone;
    var s := Sys(db, PrStart, ran, None);
    AloneIsARun(s, os);
    LoneRun(s, os);
    assert RowsOk(Run(s, Steps(os)).db, Run(s, Steps(os)).ran);
  }

  predicate Interrupted(db: Db) {
    db.order.status == Provisioning || db.order.status == PendingRetry
  }

  // What recovery does to one order: an interrupted one is settled, any other
  // is left alone.
  predicate Recovered(before: Db, after: Db) {
    if Interrupted(before) then after.order.status in {Active, PendingRetry} else after == before
  }

  predicate Unfinished(before: Db, after: Db) {
    Interrupted(before) && after.order.status != Active
  }

  method RecoverOrder(service: Service, given: seq<Oracle>, ghost ran: seq<nat>) returns (failed: bool)
    requires |given| == STEPS && RowsOk(service.store.Tables(), ran)
    modifies service.store
    ensures Recovered(old(service.store.Tables()), service.store.Tables())
    ensures old(service.store.order).status in {Provisioning, PendingRetry} ==>
              ProvisionReturns(
                old(service.store.Tables()), given, service.store.Tables(), if failed then Some(Retryable) else None)
    ensures failed <==> Unfinished(old(service.store.Tables()), service.store.Tables())
  {
    hide RowsOk, Alone, WalkEnds;
    failed := false;
    if service.store.order.status == Provisioning || service.store.order.status == PendingRetry {
      ghost var db := service.store.Tables();
      RowsHaveFive(db, ran);
      var failure;
      ghost var os;
      failure, os := service.Provision(given);
      ProvisionSettles(db, ran, os, failure);
      failed := failure != None;
      EndsOneWay(db, given, service.store.Tables(), failure);
    }
  }

  lemma EndsOneWay(db: Db, given: seq<Oracle>, db': Db, failure: Option<Error>)
    requires WalkEnds(db, given, db', failure)
    ensures failure == None || failure == Some(Retryable)
  {
  }

  // Recover, on the services of the known orders: errs counts the orders that
  // could not be brought up. ran is the history of each order's steps.
  method Recover(services: seq<Service>, given: seq<seq<Oracle>>, ghost ran: seq<seq<nat>>) returns (errs: nat)
    requires |given| == |ran| == |services|
    requires forall i, j | 0 <= i < j < |services| :: services[i].store != services[j].store
    requires forall i | 0 <= i < |services| :: |given[i]| == STEPS && RowsOk(services[i].store.Tables(), ran[i])
    modifies set i | 0 <= i < |services| :: services[i].store
    ensures forall i | 0 <= i < |services| :: Recovered(old(services[i].store.Tables()), services[i].store.Tables())
    ensures errs == 0 <==>
            forall i | 0 <= i < |services| :: !Unfinished(old(services[i].store.Tables()), services[i].store.Tables())
  {
    hide RowsOk, Recovered, Unfinished;
    errs := 0;
    var n := 0;
    while n < |services|
      invariant n <= |services|
      invariant forall i | n <= i < |services| :: services[i].store.Tables() == old(services[i].store.Tables())
      invariant forall i | 0 <= i < n :: Recovered(old(services[i].store.Tables()), services[i].store.Tables())
      invariant errs == 0 <==>
                forall i | 0 <= i < n :: !Unfinished(old(services[i].store.Tables()), services[i].store.Tables())
    {
      var failed := RecoverOrder(services[n], given[n], ran[n]);
      if failed {
        errs := errs + 1;
      }
      n := n + 1;
    }
  }

  lemma RowsHaveFive(db: Db, ran: seq<nat>)
    requires RowsOk(db, ran)
    ensures |db.steps| == STEPS
  {
  }
}
