// The rows of one deployment order: the order, its five saga steps, its device
// bindings, trial, first-round inspections and first-period bill, with one
// function per SQL statement. UNIQUE(order_id) on trials and UNIQUE(order_id,
// period_no) on bills are checked by the inserts; nothing keeps inspections
// unique.
module SagaDb {
  import opened Common
  import opened Status

  const STEPS := 5

  // The steps in saga order.
  const REGISTER := 0
  const BIND := 1
  const TRIAL := 2
  const INSPECT := 3
  const BILL := 4

  datatype Order = Order(status: DeploymentStatus, trialId: Option<Id>, retryCount: nat, version: int)

  datatype Step = Step(status: StepStatus, attempts: nat, version: int)

  datatype InspectionStatus = Dispatched | Completed | Cancelled

  datatype Bill = Bill(status: BillStatus, version: int)

  datatype Db = Db(
    order: Order, steps: seq<Step>, devices: set<Id>, trials: seq<Id>,
    inspections: seq<InspectionStatus>, bills: seq<Bill>)
  {
    // deployment_orders

    function UpdateStatus(src: DeploymentStatus, dst: DeploymentStatus, version: int): Result<Db> {
      if order.status == src && order.version == version then
        Ok(this.(order := order.(status := dst, version := version + 1)))
      else
        Err(VersionConflict)
    }

    function LinkTrial(trialId: Id, version: int): Result<Db> {
      if order.version == version then
        Ok(this.(order := order.(trialId := Some(trialId), version := version + 1)))
      else
        Err(VersionConflict)
    }

    function BumpRetry(): Db {
      this.(order := order.(retryCount := order.retryCount + 1, version := order.version + 1))
    }

    // UpdateResponsibility, as far as the saga is concerned.
    function TouchOrder(): Db {
      this.(order := order.(version := order.version + 1))
    }

    // deployment_steps

    function MarkProcessing(i: nat, version: int): Result<Db> {
      if i < |steps| && steps[i].version == version && steps[i].status in {StepPending, StepFailed} then
        Ok(this.(steps := steps[i := Step(StepProcessing, steps[i].attempts + 1, version + 1)]))
      else
        Err(VersionConflict)
    }

    // MarkDone, MarkFailed and MarkCompensated are guarded by the version alone.
    function Mark(i: nat, status: StepStatus, version: int): Result<Db> {
      if i < |steps| && steps[i].version == version then
        Ok(this.(steps := steps[i := steps[i].(status := status, version := version + 1)]))
      else
        Err(VersionConflict)
    }

    // trials, inspections, bills, devices

    function CreateTrial(id: Id): Result<Db> {
      if trials != [] then Err(AlreadyExists) else Ok(this.(trials := [id]))
    }

    function CreateInspection(): Db {
      this.(inspections := inspections + [Dispatched])
    }

    function CancelInspections(): Db {
      this.(inspections := Cancelling(inspections))
    }

    static function Cancelling(all: seq<InspectionStatus>): (after: seq<InspectionStatus>)
      ensures |after| == |all|
    {
      seq(|all|, i requires 0 <= i < |all| => if all[i] == Dispatched then Cancelled else all[i])
    }

    function CreateBill(): Result<Db> {
      if bills != [] then Err(AlreadyExists) else Ok(this.(bills := [Bill(BillDraft, 1)]))
    }

    function UpdateBillStatus(src: BillStatus, dst: BillStatus, version: int): Result<Db> {
      if bills != [] && bills[0].version == version && bills[0].status == src then
        Ok(this.(bills := bills[0 := Bill(dst, version + 1)]))
      else
        Err(VersionConflict)
    }

    function UpdateBillTotals(): Db {
      if bills == [] then this else this.(bills := bills[0 := bills[0].(version := bills[0].version + 1)])
    }

    function UnbindAllDevices(): Db {
      this.(devices := {})
    }
  }

  // CreateOrder: a draft with five pending steps and its planned devices.
  function NewOrder(devices: set<Id>): Db {
    Db(Order(Draft, None, 0, 1), seq(STEPS, _ => Step(StepPending, 0, 1)), devices, [], [], [])
  }

  // execStep: the effect of one step. fail stands for a reference that is
  // missing or belongs to someone else, and for any driver failure.
  function ExecStep(db: Db, order: Order, i: nat, fail: bool, freshId: Id): Result<Db> {
    if fail then Err(Driver)
    else if i == BIND then
      (if db.devices == {} then Err(Incomplete) else Ok(db))
    else if i == TRIAL then
      (if db.trials != [] then Ok(db)
       else
         var created :- db.CreateTrial(freshId);
         created.LinkTrial(freshId, order.version))
    else if i == INSPECT then
      Ok(if db.inspections != [] then db else db.CreateInspection())
    else if i == BILL then
      (if db.bills != [] then Ok(db) else db.CreateBill())
    else
      Ok(db)
  }

  // The transaction around a step: its effect and its mark, or neither.
  function ExecAndMark(db: Db, order: Order, i: nat, version: int, fail: bool, freshId: Id): Result<Db> {
    var effected :- ExecStep(db, order, i, fail, freshId);
    effected.Mark(i, StepDone, version)
  }

  // --- compensation as a function of the tables ---------------------------------------

  // compensateStep.
  function UndoEffect(db: Db, i: nat): Db {
    if i == BILL then
      (if db.bills != [] && db.bills[0].status == BillDraft then
         db.(bills := db.bills[0 := Bill(BillVoided, db.bills[0].version + 1)])
       else db)
    else if i == INSPECT then db.CancelInspections()
    else if i == BIND then db.UnbindAllDevices()
    else db
  }

  function UndoStep(db: Db, i: nat): Db {
    if i < |db.steps| && db.steps[i].status == StepDone then
      var undone := UndoEffect(db, i);
      undone.(steps := undone.steps[i := db.steps[i].(status := StepCompensated, version := db.steps[i].version + 1)])
    else db
  }

  // The steps from i on undone, last first.
  function UndoneFrom(db: Db, i: nat): Db
    decreases STEPS - i
  {
    if i >= STEPS then db else UndoStep(UndoneFrom(db, i + 1), i)
  }
}
