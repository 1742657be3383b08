// The trial service as it is written, on tables updated in place. Each call is
// proved to be the program of its worker in TrialMachine, run without
// interruption; os records the listing order its steps saw.
module TrialService {
  import opened Common
  import opened Status
  import opened TrialDb
  import opened TrialMachine
  import opened TrialAlone
  import Calls = TrialCalls
  import Deadlines = DeadlineCalls
  import TimeText

  class Store {
    var trials: map<Id, Trial>
    var trialOf: map<Id, Id>
    var orders: map<Id, Order>

    constructor ()
      ensures Tables() == Db(map[], map[], map[])
    {
      trials, trialOf, orders := map[], map[], map[];
    }

    ghost function Tables(): Db
      reads this
    {
      Db(trials, trialOf, orders)
    }

    method UpdateTrialStatus(id: Id, src: TrialStatus, dst: TrialStatus, version: int) returns (failure: Option<Error>)
      modifies this`trials
      ensures match old(Tables()).UpdateTrialStatus(id, src, dst, version)
              case Ok(db) => failure == None && Tables() == db
              case Err(e) => failure == Some(e) && Tables() == old(Tables())
    {
      if id !in trials || trials[id].status != src || trials[id].version != version {
        return Some(VersionConflict);
      }
      trials := trials[id := trials[id].(status := dst, version := version + 1)];
      return None;
    }

    method SetAccepted(id: Id, actor: Id, version: int) returns (failure: Option<Error>)
      modifies this`trials
      ensures match old(Tables()).SetAccepted(id, actor, version)
              case Ok(db) => failure == None && Tables() == db
              case Err(e) => failure == Some(e) && Tables() == old(Tables())
    {
      if id !in trials || trials[id].version != version || trials[id].status !in {TrialActive, TrialOverdue} {
        return Some(VersionConflict);
      }
      trials := trials[id := trials[id].(status := TrialAccepted, acceptedBy := Some(actor), version := version + 1)];
      return None;
    }

    method UpdateResponsibility(orderId: Id, role: Role, mode: Mode, version: int) returns (failure: Option<Error>)
      modifies this`orders
      ensures match old(Tables()).UpdateResponsibility(orderId, role, mode, version)
              case Ok(db) => failure == None && Tables() == db
              case Err(e) => failure == Some(e) && Tables() == old(Tables())
    {
      if orderId !in orders || orders[orderId].version != version {
        return Some(VersionConflict);
      }
      orders := orders[orderId := orders[orderId].(role := role, mode := mode, version := version + 1)];
      return None;
    }

    // The rows past their deadline, in the order the query returns them.
    method ListTrialsPastDeadline(now: int) returns (rows: seq<Trial>, ghost order: seq<Id>)
      ensures Lists(Tables(), now, order) && rows == Fetch(Tables(), now, order)
    {
      hide TimeText.TextBefore;
      rows, order := [], [];
      var left := set id | id in trials && trials[id].status in {TrialActive, TrialOverdue}
                           && TimeText.TextBefore(trials[id].deadline, now);
      assert left == Tables().PastDeadline(now);
      while left != {}
        invariant left <= Tables().PastDeadline(now)
        invariant forall i, j | 0 <= i < j < |order| :: order[i] != order[j]
        invariant (set i | 0 <= i < |order| :: order[i]) == Tables().PastDeadline(now) - left
        invariant |rows| == |order| && forall i | 0 <= i < |rows| :: order[i] in trials && rows[i] == trials[order[i]]
        decreases left
      {
        var id :| id in left;
        Listed(order, id);
        rows, order, left := rows + [trials[id]], order + [id], left - {id};
      }
    }
  }

  lemma Listed(order: seq<Id>, id: Id)
    requires id !in (set i | 0 <= i < |order| :: order[i])
    ensures forall i | 0 <= i < |order| :: order[i] != id
    ensures (set i | 0 <= i < |order + [id]| :: (order + [id])[i]) == (set i | 0 <= i < |order| :: order[i]) + {id}
  {
    assert (order + [id])[|order|] == id;
    assert forall i | 0 <= i < |order| :: (order + [id])[i] == order[i];
  }

  lemma StartStep(db: Db, now: int, writes: map<Id, nat>, order: seq<Id>)
    requires Lists(db, now, order)
    ensures StepWorker(db, now, writes, CdStart, order) == (db, CdNext(Loop(now, Fetch(db, now, order), 0, 0, {})))
  {
    hide Lists;
  }

  lemma EndStep(db: Db, now: int, writes: map<Id, nat>, loop: Loop)
    requires loop.at == |loop.rows|
    ensures StepWorker(db, now, writes, CdNext(loop), []) == (db, Counted(loop.count, loop.listedAt, loop.won))
  {
  }

  class Service {
    const store: Store

    constructor (store: Store)
      ensures this.store == store
    {
      this.store := store;
    }

    method Accept(trialId: Id, actor: Id, now: int, ghost writes: map<Id, nat>)
      returns (failure: Option<Error>, ghost did: bool, ghost os: seq<seq<Id>>)
      modifies store
      ensures Alone(old(store.Tables()), now, writes, AcStart(trialId, actor), os) == (store.Tables(), Returned(failure, did))
      ensures DbOk(old(store.Tables())) ==>
                Calls.AcceptReturns(old(store.Tables()), trialId, actor, store.Tables(), failure, did)
    {
      hide Alone, DbOk, Calls.AcceptReturns;
      failure, did, os := AcceptSteps(trialId, actor, now, writes);
      if DbOk(old(store.Tables())) {
        Calls.AcceptCallReturns(old(store.Tables()), trialId, actor, now, writes, os, store.Tables(), failure, did);
      }
    }

    // The statements of Accept.
    method AcceptSteps(trialId: Id, actor: Id, now: int, ghost writes: map<Id, nat>)
      returns (failure: Option<Error>, ghost did: bool, ghost os: seq<seq<Id>>)
      modifies store
      ensures Alone(old(store.Tables()), now, writes, AcStart(trialId, actor), os) == (store.Tables(), Returned(failure, did))
    {
      hide Alone, AssertTransition;
      ghost var db0, w0 := store.Tables(), AcStart(trialId, actor);
      Begin(db0, now, writes, w0);
      os, did := [] + [[]], false;
      failure := if trialId !in store.trials then Some(NotFound)
                 else if store.trials[trialId].status == TrialAccepted then None
                 else if !AssertTransition(trialTransitions, store.trials[trialId].status, TrialAccepted) then
                   Some(IllegalTransition)
                 else None;
      if failure != None || store.trials[trialId].status == TrialAccepted {
        Take(db0, now, writes, w0, [], [], db0, w0, db0, Returned(failure, false));
        return;
      }
      var t := store.trials[trialId];
      Take(db0, now, writes, w0, [], [], db0, w0, db0, AcSet(t, actor));
      failure := store.SetAccepted(t.id, actor, t.version);
      did := failure == None;
      Take(db0, now, writes, w0, os, [], db0, AcSet(t, actor), store.Tables(), Returned(failure, did));
      os := os + [[]];
    }

    method Convert(trialId: Id, now: int, ghost writes: map<Id, nat>)
      returns (failure: Option<Error>, ghost did: bool, ghost os: seq<seq<Id>>)
      modifies store
      ensures Alone(old(store.Tables()), now, writes, CvStart(trialId), os) == (store.Tables(), Returned(failure, did))
      ensures DbOk(old(store.Tables())) ==>
                Calls.ConvertReturns(old(store.Tables()), trialId, store.Tables(), failure, did)
    {
      hide Alone, DbOk, Calls.ConvertReturns;
      failure, did, os := ConvertSteps(trialId, now, writes);
      if DbOk(old(store.Tables())) {
        Calls.ConvertCallReturns(old(store.Tables()), trialId, now, writes, os, store.Tables(), failure, did);
      }
    }

    // The statements of Convert.
    method ConvertSteps(trialId: Id, now: int, ghost writes: map<Id, nat>)
      returns (failure: Option<Error>, ghost did: bool, ghost os: seq<seq<Id>>)
      modifies store
      ensures Alone(old(store.Tables()), now, writes, CvStart(trialId), os) == (store.Tables(), Returned(failure, did))
    {
      hide Alone, AssertTransition;
      ghost var db0, w0 := store.Tables(), CvStart(trialId);
      Begin(db0, now, writes, w0);
      os, did := [] + [[]], false;
      failure := if trialId !in store.trials then Some(NotFound)
                 else if store.trials[trialId].status == TrialConverted then None
                 else if !AssertTransition(trialTransitions, store.trials[trialId].status, TrialConverted) then
                   Some(IllegalTransition)
                 else None;
      if failure != None || store.trials[trialId].status == TrialConverted {
        Take(db0, now, writes, w0, [], [], db0, w0, db0, Returned(failure, false));
        return;
      }
      var t := store.trials[trialId];
      Take(db0, now, writes, w0, [], [], db0, w0, db0, CvMark(t));
      failure := store.UpdateTrialStatus(t.id, t.status, TrialConverted, t.version);
      if failure != None {
        Take(db0, now, writes, w0, os, [], db0, CvMark(t), store.Tables(), Returned(failure, false));
        os := os + [[]];
        return;
      }
      ghost var db1 := store.Tables();
      Take(db0, now, writes, w0, os, [], db0, CvMark(t), db1, CvOrder(t.orderId));
      os, did := os + [[]], true;
      if t.orderId !in store.orders {
        Take(db0, now, writes, w0, os, [], db1, CvOrder(t.orderId), db1, Returned(None, true));
        os := os + [[]];
        return;
      }
      var order := store.orders[t.orderId];
      Take(db0, now, writes, w0, os, [], db1, CvOrder(t.orderId), db1, CvTransfer(order));
      os := os + [[]];
      var _ := store.UpdateResponsibility(order.id, CustomerManager, RentSale, order.version);
      Take(db0, now, writes, w0, os, [], db1, CvTransfer(order), store.Tables(), Returned(None, true));
      os := os + [[]];
    }

    method Escalate(trialId: Id, now: int, ghost writes: map<Id, nat>)
      returns (failure: Option<Error>, did: bool, ghost os: seq<seq<Id>>)
      requires forall id | id in store.trials :: store.trials[id].id == id
      modifies store
      ensures Alone(old(store.Tables()), now, writes, EsTrial(trialId, Direct), os) == (store.Tables(), Returned(failure, did))
      ensures DbOk(old(store.Tables())) ==>
                Calls.EscalateReturns(old(store.Tables()), trialId, store.Tables(), failure, did)
    {
      hide Alone, DbOk, Calls.EscalateReturns;
      failure, did, os := EscalateFor(trialId, now, writes, Direct);
      if DbOk(old(store.Tables())) {
        Calls.EscalateCallReturns(old(store.Tables()), trialId, now, writes, os, store.Tables(), failure, did);
      }
    }

    // The statements of Escalate. caller is who called: a direct caller, or the
    // loop below.
    method EscalateFor(trialId: Id, now: int, ghost writes: map<Id, nat>, ghost caller: Caller)
      returns (failure: Option<Error>, did: bool, ghost os: seq<seq<Id>>)
      requires forall id | id in store.trials :: store.trials[id].id == id
      modifies store
      ensures forall id | id in store.trials :: store.trials[id].id == id
      ensures Alone(old(store.Tables()), now, writes, EsTrial(trialId, caller), os)
              == (store.Tables(), Resume(caller, failure, did, trialId))
    {
      hide Alone, AssertTransition, Resume;
      ghost var db0, w0 := store.Tables(), EsTrial(trialId, caller);
      Begin(db0, now, writes, w0);
      os, did := [] + [[]], false;
      if trialId !in store.trials {
        failure := Some(NotFound);
        Take(db0, now, writes, w0, [], [], db0, w0, db0, Resume(caller, failure, false, trialId));
        return;
      }
      var t := store.trials[trialId];
      Take(db0, now, writes, w0, [], [], db0, w0, db0, EsOrder(t, caller));
      if t.orderId !in store.orders || t.status == TrialEscalated || t.status == TrialConverted {
        failure := if t.orderId !in store.orders then Some(NotFound) else None;
        Take(db0, now, writes, w0, os, [], db0, EsOrder(t, caller), db0, Resume(caller, failure, false, trialId));
        os := os + [[]];
        return;
      }
      var order := store.orders[t.orderId];
      ghost var snap := Snapshot(order, Writes(writes, t.orderId), t.status == TrialActive);
      ghost var rest;
      if t.status == TrialActive {
        Take(db0, now, writes, w0, os, [], db0, EsOrder(t, caller), db0, EsMarkOverdue(t, snap, caller));
        os := os + [[]];
        failure, did, rest := MarkThenTransfer(t, order, now, writes, snap.seen, caller);
        AloneConcat(db0, now, writes, w0, os, rest);
      } else {
        Take(db0, now, writes, w0, os, [], db0, EsOrder(t, caller), db0, Assert(t, snap, caller));
        os := os + [[]];
        failure, did, rest := AssertThenTransfer(t, order, now, writes, snap, caller);
        AloneConcat(db0, now, writes, w0, os, rest);
      }
      os := os + rest;
    }

    // Escalate from the first update of an active trial on.
    method MarkThenTransfer(t: Trial, order: Order, now: int, ghost writes: map<Id, nat>, ghost seen: nat, ghost caller: Caller)
      returns (failure: Option<Error>, did: bool, ghost os: seq<seq<Id>>)
      requires forall id | id in store.trials :: store.trials[id].id == id
      modifies store
      ensures forall id | id in store.trials :: store.trials[id].id == id
      ensures Alone(old(store.Tables()), now, writes, EsMarkOverdue(t, Snapshot(order, seen, true), caller), os)
              == (store.Tables(), Resume(caller, failure, did, t.id))
    {
      hide Alone, AssertTransition, Resume, Assert;
      ghost var snap := Snapshot(order, seen, true);
      ghost var db0, w0 := store.Tables(), EsMarkOverdue(t, snap, caller);
      Begin(db0, now, writes, w0);
      os, did := [] + [[]], false;
      failure := store.UpdateTrialStatus(t.id, TrialActive, TrialOverdue, t.version);
      ghost var db1 := store.Tables();
      if failure != None {
        Take(db0, now, writes, w0, [], [], db0, w0, db1, Resume(caller, failure, false, t.id));
        return;
      }
      Take(db0, now, writes, w0, [], [], db0, w0, db1, EsReload(t.id, snap, caller));
      var marked := store.trials[t.id];
      Take(db0, now, writes, w0, os, [], db1, EsReload(t.id, snap, caller), db1, Assert(marked, snap, caller));
      os := os + [[]];
      ghost var rest;
      failure, did, rest := AssertThenTransfer(marked, order, now, writes, snap, caller);
      AloneConcat(db0, now, writes, w0, os, rest);
      os := os + rest;
    }

    // Escalate from the transition check on. The failed transfer is only logged.
    method AssertThenTransfer(t: Trial, order: Order, now: int, ghost writes: map<Id, nat>, ghost snap: Snapshot, ghost caller: Caller)
      returns (failure: Option<Error>, did: bool, ghost os: seq<seq<Id>>)
      requires snap.order == order
      requires forall id | id in store.trials :: store.trials[id].id == id
      modifies store
      ensures forall id | id in store.trials :: store.trials[id].id == id
      ensures Alone(old(store.Tables()), now, writes, Assert(t, snap, caller), os)
              == (store.Tables(), Resume(caller, failure, did, t.id))
    {
      hide Alone, AssertTransition, Resume;
      ghost var db0, w0 := store.Tables(), Assert(t, snap, caller);
      Begin(db0, now, writes, w0);
      os, did := [], false;
      if !AssertTransition(trialTransitions, t.status, TrialEscalated) {
        failure := Some(IllegalTransition);
        return;
      }
      failure := store.UpdateTrialStatus(t.id, t.status, TrialEscalated, t.version);
      ghost var db1 := store.Tables();
      os := [] + [[]];
      if failure != None {
        Take(db0, now, writes, w0, [], [], db0, w0, db1, Resume(caller, failure, false, t.id));
        return;
      }
      Take(db0, now, writes, w0, [], [], db0, w0, db1, EsTransfer(t.id, snap, caller));
      var _ := store.UpdateResponsibility(order.id, CustomerManager, UrgeAccept, order.version);
      did := true;
      Take(db0, now, writes, w0, os, [], db1, EsTransfer(t.id, snap, caller), store.Tables(), Resume(caller, None, true, t.id));
      os := os + [[]];
    }

    // One turn of the loop of CheckDeadlines.
    method CheckRow(t: Trial, now: int, ghost writes: map<Id, nat>, ghost loop: Loop)
      returns (counted: bool, ghost os: seq<seq<Id>>)
      requires loop.at < |loop.rows| && t == loop.rows[loop.at]
      requires forall id | id in store.trials :: store.trials[id].id == id
      modifies store
      ensures forall id | id in store.trials :: store.trials[id].id == id
      ensures Alone(old(store.Tables()), now, writes, CdNext(loop), os)
              == (store.Tables(), Resume(FromCheck(loop), None, counted, t.id))
    {
      hide Alone;
      ghost var db0, w0, caller := store.Tables(), CdNext(loop), FromCheck(loop);
      Begin(db0, now, writes, w0);
      os, counted := [] + [[]], false;
      if t.status != TrialActive && t.status != TrialOverdue {
        Take(db0, now, writes, w0, [], [], db0, w0, db0, Skip(loop));
        return;
      }
      if t.status == TrialActive {
        var conflict := store.UpdateTrialStatus(t.id, TrialActive, TrialOverdue, t.version);
        ghost var db1 := store.Tables();
        if conflict != None {
          Take(db0, now, writes, w0, [], [], db0, w0, db1, Skip(loop));
          return;
        }
        Take(db0, now, writes, w0, [], [], db0, w0, db1, CdReload(loop));
        Take(db0, now, writes, w0, os, [], db1, CdReload(loop), db1, EsTrial(t.id, caller));
        os := os + [[]];
      } else {
        Take(db0, now, writes, w0, [], [], db0, w0, db0, EsTrial(t.id, caller));
      }
      ghost var db2 := store.Tables();
      var failure, did;
      ghost var rest;
      failure, did, rest := EscalateFor(t.id, now, writes, caller);
      AloneConcat(db0, now, writes, w0, os, rest);
      os := os + rest;
      counted := failure == None && did;
    }

    // won is which trials the count stands for.
    method CheckDeadlines(now: int, ghost writes: map<Id, nat>)
      returns (escalated: nat, ghost won: set<Id>, ghost os: seq<seq<Id>>)
      requires forall id | id in store.trials :: store.trials[id].id == id
      modifies store
      ensures Alone(old(store.Tables()), now, writes, CdStart, os) == (store.Tables(), Counted(escalated, now, won))
      ensures DbOk(old(store.Tables())) ==>
                Deadlines.Checked(old(store.Tables()), now, store.Tables(), escalated)
    {
      hide Alone, DbOk, Deadlines.Checked;
      escalated, won, os := ListAndCheck(now, writes);
      if DbOk(old(store.Tables())) {
        Deadlines.CheckDeadlinesReturns(old(store.Tables()), now, writes, os, store.Tables(), escalated, now, won);
      }
    }

    // The listing of CheckDeadlines and its loop.
    method ListAndCheck(now: int, ghost writes: map<Id, nat>)
      returns (escalated: nat, ghost won: set<Id>, ghost os: seq<seq<Id>>)
      requires forall id | id in store.trials :: store.trials[id].id == id
      modifies store
      ensures Alone(old(store.Tables()), now, writes, CdStart, os) == (store.Tables(), Counted(escalated, now, won))
    {
      hide Alone, Lists, StepWorker;
      ghost var db0 := store.Tables();
      Begin(db0, now, writes, CdStart);
      var rows;
      ghost var order;
      rows, order := store.ListTrialsPastDeadline(now);
      StartStep(db0, now, writes, order);
      Take(db0, now, writes, CdStart, [], order, db0, CdStart, db0, CdNext(Loop(now, rows, 0, 0, {})));
      ghost var rest;
      escalated, won, rest := CheckRows(rows, now, writes);
      AloneConcat(db0, now, writes, CdStart, [] + [order], rest);
      os := [] + [order] + rest;
    }

    // The loop of CheckDeadlines.
    method CheckRows(rows: seq<Trial>, now: int, ghost writes: map<Id, nat>)
      returns (escalated: nat, ghost won: set<Id>, ghost os: seq<seq<Id>>)
      requires forall id | id in store.trials :: store.trials[id].id == id
      modifies store
      ensures Alone(old(store.Tables()), now, writes, CdNext(Loop(now, rows, 0, 0, {})), os)
              == (store.Tables(), Counted(escalated, now, won))
    {
      hide Alone, StepWorker;
      ghost var db0, w0 := store.Tables(), CdNext(Loop(now, rows, 0, 0, {}));
      Begin(db0, now, writes, w0);
      os, escalated, won := [], 0, {};
      var i := 0;
      while i < |rows|
        invariant i <= |rows|
        invariant forall id | id in store.trials :: store.trials[id].id == id
        invariant Alone(db0, now, writes, w0, os) == (store.Tables(), CdNext(Loop(now, rows, i, escalated, won)))
      {
        var counted;
        ghost var rest;
        counted, rest := CheckRow(rows[i], now, writes, Loop(now, rows, i, escalated, won));
        AloneConcat(db0, now, writes, w0, os, rest);
        if counted {
          escalated, won := escalated + 1, won + {rows[i].id};
        }
        os, i := os + rest, i + 1;
      }
      EndStep(store.Tables(), now, writes, Loop(now, rows, i, escalated, won));
      Take(db0, now, writes, w0, os, [], store.Tables(), CdNext(Loop(now, rows, i, escalated, won)),
           store.Tables(), Counted(escalated, now, won));
      os := os + [[]];
    }
  }
}
