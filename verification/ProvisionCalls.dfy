// Provision from call to return, when nobody interrupts it: which steps it runs,
// where it stops, and what it leaves in the order's rows.
module ProvisionCalls {
  import opened Common
  import opened Status
  import opened SagaDb
  import opened SagaMachine

  // A step the call executes; a done, compensated or interrupted one is passed by.
  predicate Runs(s: Step) {
    s.status == StepPending || s.status == StepFailed
  }

  // Step k cannot succeed: what it refers to does not check out, or it is the
  // binding step of an order without devices.
  predicate Blocked(db: Db, given: seq<Oracle>, k: nat)
    requires k < |given|
  {
    given[k].fail || (k == BIND && db.devices == {})
  }

  predicate FailsAt(db: Db, given: seq<Oracle>, k: nat) {
    k < |db.steps| && k < |given| && Runs(db.steps[k]) && Blocked(db, given, k)
  }

  predicate RunBefore(db: Db, i: nat, k: nat) {
    k < i && k < |db.steps| && Runs(db.steps[k])
  }

  predicate MakesTrial(db: Db, i: nat) {
    RunBefore(db, i, TRIAL) && db.trials == []
  }

  // The order is claimed and the steps before i have been gone through: each one
  // that runs is done, after one more attempt, and its effect is there.
  predicate WalkedTo(db: Db, given: seq<Oracle>, i: nat, db': Db) {
    && |db.steps| == |db'.steps| == |given| == STEPS
    && (forall k | 0 <= k < STEPS ::
          db'.steps[k] == if RunBefore(db, i, k) then Step(StepDone, db.steps[k].attempts + 1, db.steps[k].version + 2)
                          else db.steps[k])
    && db'.devices == db.devices
    && db'.trials == (if MakesTrial(db, i) then [given[TRIAL].freshId] else db.trials)
    && db'.inspections == (if RunBefore(db, i, INSPECT) && db.inspections == [] then [Dispatched] else db.inspections)
    && db'.bills == (if RunBefore(db, i, BILL) && db.bills == [] then [Bill(BillDraft, 1)] else db.bills)
    && db'.order == (if MakesTrial(db, i)
                     then db.order.(status := Provisioning, trialId := Some(given[TRIAL].freshId), version := db.order.version + 2)
                     else db.order.(status := Provisioning, version := db.order.version + 1))
  }

  // The call stopped at step f: that step is failed and the order waits for a retry.
  predicate StoppedAt(db: Db, given: seq<Oracle>, f: nat, db': Db) {
    && |db.steps| == |db'.steps| == STEPS && f < STEPS
    && WalkedTo(db, given, f, db'.(
         steps := db'.steps[f := db.steps[f]],
         order := db'.order.(status := Provisioning, retryCount := db.order.retryCount, version := db'.order.version - 2)))
    && db'.steps[f] == Step(StepFailed, db.steps[f].attempts + 1, db.steps[f].version + 2)
    && db'.order.status == PendingRetry && db'.order.retryCount == db.order.retryCount + 1
  }

  // Every step that runs is done and the order is active.
  predicate Provisioned(db: Db, given: seq<Oracle>, db': Db) {
    && db'.order.status == Active
    && WalkedTo(db, given, STEPS, db'.(order := db'.order.(status := Provisioning, version := db'.order.version - 1)))
  }

  // Unless a step that runs cannot succeed the order is provisioned; otherwise the
  // call stops at the first of them.
  ghost predicate WalkEnds(db: Db, given: seq<Oracle>, db': Db, failure: Option<Error>) {
    if exists k :: 0 <= k < STEPS && FailsAt(db, given, k) then
      && failure == Some(Retryable)
      && exists f :: 0 <= f < STEPS && FailsAt(db, given, f) && (forall k | 0 <= k < f :: !FailsAt(db, given, k))
                     && StoppedAt(db, given, f, db')
    else failure == None && Provisioned(db, given, db')
  }

  // An active order is left alone and one being or having been compensated is
  // refused; any other is walked through.
  ghost predicate ProvisionReturns(db: Db, given: seq<Oracle>, db': Db, failure: Option<Error>) {
    match db.order.status
    case Active => failure == None && db' == db
    case Compensating => failure == Some(IllegalTransition) && db' == db
    case Aborted => failure == Some(IllegalTransition) && db' == db
    case _ => WalkEnds(db, given, db', failure)
  }

  // --- one step ---------------------------------------------------------------------------

  lemma ClaimWalks(db: Db, given: seq<Oracle>)
    requires |db.steps| == |given| == STEPS
    ensures WalkedTo(db, given, 0, db.(order := db.order.(status := Provisioning, version := db.order.version + 1)))
  {
  }

  lemma PassedBy(db: Db, given: seq<Oracle>, i: nat, db': Db)
    requires WalkedTo(db, given, i, db') && i < STEPS && !Runs(db.steps[i])
    ensures WalkedTo(db, given, i + 1, db')
    ensures db'.steps[i] == db.steps[i]
  {
  }

  // The step's row while it runs.
  function InProgress(db: Db, i: nat): Db
    requires i < |db.steps|
  {
    db.(steps := db.steps[i := Step(StepProcessing, db.steps[i].attempts + 1, db.steps[i].version + 1)])
  }

  lemma StepClaimed(db: Db, given: seq<Oracle>, i: nat, mid: Db)
    requires WalkedTo(db, given, i, mid) && i < STEPS && Runs(db.steps[i])
    ensures |mid.steps| == STEPS && mid.steps[i] == db.steps[i]
    ensures mid.MarkProcessing(i, db.steps[i].version) == Ok(InProgress(mid, i))
  {
  }

  lemma StepRuns(db: Db, given: seq<Oracle>, i: nat, mid: Db, order: Order)
    requires WalkedTo(db, given, i, mid) && i < STEPS && Runs(db.steps[i])
    requires order.version == db.order.version + 1
    ensures var ran := ExecAndMark(InProgress(mid, i), order, i, db.steps[i].version + 1, given[i].fail, given[i].freshId);
            if Blocked(db, given, i) then ran.Err? else ran.Ok? && WalkedTo(db, given, i + 1, ran.value)
  {
    if i == TRIAL {
      TrialRuns(db, given, mid, order);
    } else {
      OtherRuns(db, given, i, mid, order);
    }
  }

  lemma TrialRuns(db: Db, given: seq<Oracle>, mid: Db, order: Order)
    requires WalkedTo(db, given, TRIAL, mid) && Runs(db.steps[TRIAL])
    requires order.version == db.order.version + 1
    ensures var ran := ExecAndMark(InProgress(mid, TRIAL), order, TRIAL, db.steps[TRIAL].version + 1, given[TRIAL].fail, given[TRIAL].freshId);
            if Blocked(db, given, TRIAL) then ran.Err? else ran.Ok? && WalkedTo(db, given, TRIAL + 1, ran.value)
  {
  }

  lemma OtherRuns(db: Db, given: seq<Oracle>, i: nat, mid: Db, order: Order)
    requires WalkedTo(db, given, i, mid) && i < STEPS && i != TRIAL && Runs(db.steps[i])
    ensures var ran := ExecAndMark(InProgress(mid, i), order, i, db.steps[i].version + 1, given[i].fail, given[i].freshId);
            if Blocked(db, given, i) then ran.Err? else ran.Ok? && WalkedTo(db, given, i + 1, ran.value)
  {
  }

  // The failed step is marked, the retry counted, and the order left to wait.
  predicate GivenUp(db: Db, i: nat, db': Db) {
    && i < |db.steps|
    && db' == db.(
         steps := db.steps[i := db.steps[i].(status := StepFailed, version := db.steps[i].version + 1)],
         order := db.order.(status := PendingRetry, retryCount := db.order.retryCount + 1, version := db.order.version + 2))
  }

  lemma RunningRow(db: Db, given: seq<Oracle>, i: nat, mid: Db, db': Db)
    requires WalkedTo(db, given, i, mid) && i < STEPS && db' == InProgress(mid, i)
    ensures i < |db'.steps| && db'.steps[i].version == db.steps[i].version + 1 && db'.order.status == Provisioning
  {
  }

  lemma StopsThere(db: Db, given: seq<Oracle>, f: nat, mid: Db, db': Db)
    requires WalkedTo(db, given, f, mid) && f < STEPS && FailsAt(db, given, f) && GivenUp(InProgress(mid, f), f, db')
    ensures StoppedAt(db, given, f, db')
  {
    assert db'.steps[f := db.steps[f]] == mid.steps;
  }

  lemma WalkedIsProvisioning(db: Db, given: seq<Oracle>, db': Db)
    requires WalkedTo(db, given, STEPS, db')
    ensures db'.order.status == Provisioning
  {
  }

  lemma WalkedThrough(db: Db, given: seq<Oracle>, mid: Db, db': Db)
    requires WalkedTo(db, given, STEPS, mid)
    requires db' == mid.(order := mid.order.(status := Active, version := mid.order.version + 1))
    ensures Provisioned(db, given, db')
  {
  }
}
