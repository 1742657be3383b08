// Trials and the orders they belong to, and one function per SQL statement.
// UNIQUE(order_id) is the index map trialOf.
module TrialDb {
  import opened Common
  import opened Status
  import TimeText

  datatype Role = FieldEngineer | CustomerManager

  datatype Mode = OnSiteDebug | UrgeAccept | RentSale

  datatype Trial = Trial(id: Id, orderId: Id, deadline: int, status: TrialStatus, acceptedBy: Option<Id>, version: int)

  datatype Order = Order(id: Id, role: Role, mode: Mode, version: int)

  datatype Db = Db(trials: map<Id, Trial>, trialOf: map<Id, Id>, orders: map<Id, Order>) {

    function UpdateTrialStatus(id: Id, src: TrialStatus, dst: TrialStatus, version: int): Result<Db> {
      if id in trials && trials[id].status == src && trials[id].version == version then
        Ok(this.(trials := trials[id := trials[id].(status := dst, version := version + 1)]))
      else
        Err(VersionConflict)
    }

    // Only active and overdue trials, whatever the transition table says.
    function SetAccepted(id: Id, actor: Id, version: int): Result<Db> {
      if id in trials && trials[id].version == version && trials[id].status in {TrialActive, TrialOverdue} then
        Ok(this.(trials := trials[id := trials[id].(
          status := TrialAccepted, acceptedBy := Some(actor), version := version + 1)]))
      else
        Err(VersionConflict)
    }

    function UpdateResponsibility(orderId: Id, role: Role, mode: Mode, version: int): Result<Db> {
      if orderId in orders && orders[orderId].version == version then
        Ok(this.(orders := orders[orderId := orders[orderId].(role := role, mode := mode, version := version + 1)]))
      else
        Err(VersionConflict)
    }

    // Any write of the saga to the order's row: status, trial link or retry count.
    function TouchOrder(orderId: Id): Db {
      if orderId in orders then
        this.(orders := orders[orderId := orders[orderId].(version := orders[orderId].version + 1)])
      else
        this
    }

    function CreateTrial(id: Id, orderId: Id, deadline: int): Db {
      if id in trials || orderId in trialOf || orderId !in orders then this
      else this.(
        trials := trials[id := Trial(id, orderId, deadline, TrialActive, None, 1)],
        trialOf := trialOf[orderId := id])
    }

    function CreateOrder(id: Id): Db {
      if id in orders then this else this.(orders := orders[id := Order(id, FieldEngineer, OnSiteDebug, 1)])
    }

    // The deadline test is a comparison of texts in SQL.
    function PastDeadline(now: int): set<Id> {
      set id | id in trials && trials[id].status in {TrialActive, TrialOverdue}
               && TimeText.TextBefore(trials[id].deadline, now)
    }
  }
}
