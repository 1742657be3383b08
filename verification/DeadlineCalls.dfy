// CheckDeadlines from call to return, with nobody else moving: every trial that
// is due is escalated, no other is touched, and the count says how many.
module DeadlineCalls {
  import opened Common
  import opened Status
  import opened TrialDb
  import opened TrialMachine
  import opened TrialAlone
  import opened TrialCalls
  import TimeText

  // Running its trial, or overdue, with the deadline behind it.
  predicate Due(t: Trial, now: int) {
    (t.status == TrialActive || t.status == TrialOverdue) && TimeText.TextBefore(t.deadline, now)
  }

  function DueTrials(db: Db, now: int): set<Id> {
    set id | id in db.trials && Due(db.trials[id], now)
  }

  function Escalated(t: Trial): Trial {
    t.(status := TrialEscalated, version := t.version + if t.status == TrialActive then 2 else 1)
  }

  // The order went to the customer manager, urged to accept.
  predicate UrgedOn(o: Order, o': Order) {
    o.version < o'.version && o' == o.(role := CustomerManager, mode := UrgeAccept, version := o'.version)
  }

  // What the call does to any tables.
  ghost predicate Checked(db: Db, now: int, db': Db, count: nat) {
    && count == |DueTrials(db, now)|
    && db'.trialOf == db.trialOf && db'.trials.Keys == db.trials.Keys && db'.orders.Keys == db.orders.Keys
    && (forall id | id in db.trials ::
          db'.trials[id] == if Due(db.trials[id], now) then Escalated(db.trials[id]) else db.trials[id])
    && (forall o | o in db.orders ::
          if exists id | id in db.trials :: Due(db.trials[id], now) && db.trials[id].orderId == o
          then UrgedOn(db.orders[o], db'.orders[o])
          else db'.orders[o] == db.orders[o])
  }

  // --- the listing and the sweep -----------------------------------------------------

  // The rows are the due trials, each once.
  ghost predicate Listing(db: Db, now: int, rows: seq<Trial>) {
    && (forall i | 0 <= i < |rows| :: rows[i].id in db.trials && db.trials[rows[i].id] == rows[i] && Due(rows[i], now))
    && (forall i, j | 0 <= i < j < |rows| :: rows[i].id != rows[j].id)
    && (forall id | id in db.trials && Due(db.trials[id], now) :: exists i :: 0 <= i < |rows| && rows[i].id == id)
  }

  lemma FetchLists(db: Db, now: int, order: seq<Id>)
    requires DbOk(db) && Lists(db, now, order)
    ensures Listing(db, now, Fetch(db, now, order))
  {
    hide TimeText.TextBefore;
    var rows := Fetch(db, now, order);
    forall i | 0 <= i < |rows|
      ensures rows[i].id == order[i] && order[i] in db.trials && Due(rows[i], now)
    {
      assert order[i] in db.PastDeadline(now);
    }
    forall id | id in db.trials && Due(db.trials[id], now)
      ensures exists i :: 0 <= i < |rows| && rows[i].id == id
    {
      assert id in db.PastDeadline(now);
      var i :| 0 <= i < |order| && order[i] == id;
      assert rows[i].id == id;
    }
  }

  // The tables with one more trial escalated and its order handed over.
  function Handed(db: Db, id: Id): Db {
    if id in db.trials && db.trials[id].orderId in db.orders then
      var o := db.orders[db.trials[id].orderId];
      db.(trials := db.trials[id := Escalated(db.trials[id])],
          orders := db.orders[o.id := o.(role := CustomerManager, mode := UrgeAccept, version := o.version + 1)])
    else db
  }

  function Swept(db: Db, rows: seq<Trial>, k: nat): Db
    requires k <= |rows|
  {
    if k == 0 then db else Handed(Swept(db, rows, k - 1), rows[k - 1].id)
  }

  predicate OrderPassed(rows: seq<Trial>, k: nat, o: Id)
    requires k <= |rows|
  {
    exists i :: 0 <= i < k && rows[i].orderId == o
  }

  // The tables after k rows: those escalated, their orders handed over.
  ghost predicate SweptTo(db: Db, rows: seq<Trial>, k: nat, db': Db)
    requires k <= |rows|
  {
    && DbOk(db') && db'.trialOf == db.trialOf
    && SweptTrials(db.trials, rows, k, db'.trials) && SweptOrders(db.orders, rows, k, db'.orders)
  }

  ghost predicate SweptTrials(trials: map<Id, Trial>, rows: seq<Trial>, k: nat, trials': map<Id, Trial>)
    requires k <= |rows|
  {
    && trials'.Keys == trials.Keys
    && (forall i | 0 <= i < k :: rows[i].id in trials' && trials'[rows[i].id] == Escalated(rows[i]))
    && (forall id | id in trials && (forall i | 0 <= i < k :: rows[i].id != id) :: trials'[id] == trials[id])
  }

  ghost predicate SweptOrders(orders: map<Id, Order>, rows: seq<Trial>, k: nat, orders': map<Id, Order>)
    requires k <= |rows|
  {
    && orders'.Keys == orders.Keys
    && (forall o | o in orders ::
          if OrderPassed(rows, k, o) then UrgedOn(orders[o], orders'[o]) else orders'[o] == orders[o])
  }

  lemma {:induction false} SweepGoes(db: Db, now: int, rows: seq<Trial>, k: nat)
    requires DbOk(db) && Listing(db, now, rows) && k <= |rows|
    ensures SweptTo(db, rows, k, Swept(db, rows, k))
  {
    hide Due, SweptTo, DbOk, Listing, Handed;
    if k == 0 {
      NothingSwept(db, rows);
    } else {
      SweepGoes(db, now, rows, k - 1);
      RowStillThere(db, now, rows, k - 1, Swept(db, rows, k - 1));
      OneMoreSwept(db, rows, k, Swept(db, rows, k - 1), Swept(db, rows, k));
    }
  }

  lemma NothingSwept(db: Db, rows: seq<Trial>)
    requires DbOk(db)
    ensures SweptTo(db, rows, 0, db)
  {
    hide UrgedOn;
  }

  // The next row is still as it was listed.
  lemma RowStillThere(db: Db, now: int, rows: seq<Trial>, k: nat, db': Db)
    requires DbOk(db) && Listing(db, now, rows) && k < |rows| && SweptTo(db, rows, k, db')
    ensures rows[k].id in db'.trials && db'.trials[rows[k].id] == rows[k] && rows[k].orderId in db'.orders
    ensures forall i | 0 <= i < k :: rows[i].id != rows[k].id
    ensures rows[k].status in {TrialActive, TrialOverdue}
  {
    hide TimeText.TextBefore, UrgedOn, OrderPassed;
  }

  lemma OneMoreSwept(db: Db, rows: seq<Trial>, k: nat, mid: Db, db': Db)
    requires 0 < k <= |rows| && SweptTo(db, rows, k - 1, mid) && db' == Handed(mid, rows[k - 1].id)
    requires rows[k - 1].id in mid.trials && mid.trials[rows[k - 1].id] == rows[k - 1] && rows[k - 1].orderId in mid.orders
    requires rows[k - 1].status == TrialActive || rows[k - 1].status == TrialOverdue
    requires forall i | 0 <= i < k - 1 :: rows[i].id != rows[k - 1].id
    ensures SweptTo(db, rows, k, db')
  {
    hide SweptTrials, SweptOrders;
    HandedKeepsOk(mid, rows[k - 1].id);
    OneMoreTrial(db.trials, rows, k, mid.trials);
    OneMoreOrder(db.orders, rows, k, mid.orders, db'.orders);
  }

  lemma HandedKeepsOk(db: Db, id: Id)
    requires DbOk(db) && id in db.trials && db.trials[id].status in {TrialActive, TrialOverdue}
    ensures DbOk(Handed(db, id))
    ensures var t, db' := db.trials[id], Handed(db, id);
            && t.orderId in db.orders && t.orderId in db'.orders
            && db'.trials == db.trials[id := Escalated(t)] && db'.trialOf == db.trialOf
            && UrgedOn(db.orders[t.orderId], db'.orders[t.orderId])
            && db'.orders == db.orders[t.orderId := db'.orders[t.orderId]]
  {
  }

  lemma OneMoreTrial(trials: map<Id, Trial>, rows: seq<Trial>, k: nat, mid: map<Id, Trial>)
    requires 0 < k <= |rows| && SweptTrials(trials, rows, k - 1, mid) && rows[k - 1].id in mid
    requires forall i | 0 <= i < k - 1 :: rows[i].id != rows[k - 1].id
    ensures SweptTrials(trials, rows, k, mid[rows[k - 1].id := Escalated(rows[k - 1])])
  {
  }

  lemma OneMoreOrder(orders: map<Id, Order>, rows: seq<Trial>, k: nat, mid: map<Id, Order>, orders': map<Id, Order>)
    requires 0 < k <= |rows| && SweptOrders(orders, rows, k - 1, mid)
    requires var o := rows[k - 1].orderId;
             o in mid && o in orders' && orders' == mid[o := orders'[o]] && UrgedOn(mid[o], orders'[o])
    ensures SweptOrders(orders, rows, k, orders')
  {
    hide OrderPassed;
    forall o | o in orders
      ensures if OrderPassed(rows, k, o) then UrgedOn(orders[o], orders'[o]) else orders'[o] == orders[o]
    {
      OneMorePassed(rows, k, o);
    }
  }

  lemma OneMorePassed(rows: seq<Trial>, k: nat, o: Id)
    requires 0 < k <= |rows|
    ensures OrderPassed(rows, k, o) <==> OrderPassed(rows, k - 1, o) || rows[k - 1].orderId == o
  {
    if OrderPassed(rows, k - 1, o) {
      var i :| 0 <= i < k - 1 && rows[i].orderId == o;
      assert rows[i].orderId == o;
    }
  }

  lemma {:induction false} RowsAreCounted(rows: seq<Trial>, k: nat)
    requires k <= |rows| && forall i, j | 0 <= i < j < |rows| :: rows[i].id != rows[j].id
    ensures |set i | 0 <= i < k :: rows[i].id| == k
  {
    if k > 0 {
      RowsAreCounted(rows, k - 1);
      assert (set i | 0 <= i < k :: rows[i].id) == (set i | 0 <= i < k - 1 :: rows[i].id) + {rows[k - 1].id};
    }
  }

  lemma SweepIsChecked(db: Db, now: int, rows: seq<Trial>)
    requires DbOk(db) && Listing(db, now, rows)
    ensures Checked(db, now, Swept(db, rows, |rows|), |rows|)
  {
    hide Due, Swept, DbOk, Listing, OrderPassed;
    SweepGoes(db, now, rows, |rows|);
    DueAreListed(db, now, rows);
    TrialsChecked(db, now, rows, Swept(db, rows, |rows|));
    forall o | o in db.orders
      ensures (exists id | id in db.trials :: Due(db.trials[id], now) && db.trials[id].orderId == o)
              <==> OrderPassed(rows, |rows|, o)
    {
      OrderOfDue(db, now, rows, o);
    }
  }

  lemma DueAreListed(db: Db, now: int, rows: seq<Trial>)
    requires Listing(db, now, rows)
    ensures |DueTrials(db, now)| == |rows|
  {
    hide Due;
    RowsAreCounted(rows, |rows|);
    assert (set i | 0 <= i < |rows| :: rows[i].id) == DueTrials(db, now);
  }

  lemma TrialsChecked(db: Db, now: int, rows: seq<Trial>, db': Db)
    requires Listing(db, now, rows) && SweptTrials(db.trials, rows, |rows|, db'.trials)
    ensures forall id | id in db.trials ::
              db'.trials[id] == if Due(db.trials[id], now) then Escalated(db.trials[id]) else db.trials[id]
  {
    hide Due;
    forall id | id in db.trials
      ensures db'.trials[id] == if Due(db.trials[id], now) then Escalated(db.trials[id]) else db.trials[id]
    {
      if Due(db.trials[id], now) {
        var i :| 0 <= i < |rows| && rows[i].id == id;
      } else {
        assert forall i | 0 <= i < |rows| :: rows[i].id != id;
      }
    }
  }

  lemma OrderOfDue(db: Db, now: int, rows: seq<Trial>, o: Id)
    requires Listing(db, now, rows)
    ensures (exists id | id in db.trials :: Due(db.trials[id], now) && db.trials[id].orderId == o)
            <==> OrderPassed(rows, |rows|, o)
  {
    hide Due;
    if id :| id in db.trials && Due(db.trials[id], now) && db.trials[id].orderId == o {
      var i :| 0 <= i < |rows| && rows[i].id == id;
      assert rows[i].orderId == o;
    }
    if OrderPassed(rows, |rows|, o) {
      var i :| 0 <= i < |rows| && rows[i].orderId == o;
      assert rows[i].id in db.trials && Due(db.trials[rows[i].id], now) && db.trials[rows[i].id].orderId == o;
    }
  }

  // --- the call in progress -----------------------------------------------------------

  ghost predicate LoopAt(db: Db, now: int, loop: Loop) {
    Listing(db, now, loop.rows) && loop.at <= |loop.rows| && loop.count == loop.at && loop.listedAt == now
  }

  // The tables the escalation of the loop's row finds: that row is overdue.
  function Found(db: Db, loop: Loop): Db
    requires loop.at < |loop.rows|
  {
    Overdue(Swept(db, loop.rows, loop.at), loop.rows[loop.at].id)
  }

  ghost predicate EscalatingRow(db: Db, now: int, loop: Loop, db': Db, w: Worker) {
    && LoopAt(db, now, loop) && loop.at < |loop.rows|
    && EscalateAt(Found(db, loop), loop.rows[loop.at].id, FromCheck(loop), db', w)
  }

  function CallerOf(w: Worker): Option<Caller> {
    match w
    case EsTrial(_, c) => Some(c)
    case EsOrder(_, c) => Some(c)
    case EsMarkOverdue(_, _, c) => Some(c)
    case EsReload(_, _, c) => Some(c)
    case EsMark(_, _, c) => Some(c)
    case EsTransfer(_, _, c) => Some(c)
    case _ => None
  }

  // Where a lone CheckDeadlines that found db stands.
  ghost predicate CheckAt(db: Db, now: int, db': Db, w: Worker) {
    match w
    case CdStart => db' == db
    case CdNext(loop) => LoopAt(db, now, loop) && db' == Swept(db, loop.rows, loop.at)
    case CdReload(loop) =>
      && LoopAt(db, now, loop) && loop.at < |loop.rows| && loop.rows[loop.at].status == TrialActive
      && db' == Found(db, loop)
    case Counted(count, _, _) => Checked(db, now, db', count)
    case _ =>
      CallerOf(w).Some? && CallerOf(w).value.FromCheck? && EscalatingRow(db, now, CallerOf(w).value.loop, db', w)
  }

  lemma RowFound(db: Db, now: int, loop: Loop)
    requires DbOk(db) && LoopAt(db, now, loop) && loop.at < |loop.rows|
    ensures var swept, found, t := Swept(db, loop.rows, loop.at), Found(db, loop), loop.rows[loop.at];
            && t.id in swept.trials && swept.trials[t.id] == t && t.status in {TrialActive, TrialOverdue}
            && DbOk(swept) && DbOk(found)
            && t.id in found.trials && found.trials[t.id].status == TrialOverdue
            && t.orderId in found.orders && found.trials[t.id].orderId == t.orderId
  {
    hide Listing, Swept, SweptTrials, SweptOrders;
    SweepGoes(db, now, loop.rows, loop.at);
    RowStillThere(db, now, loop.rows, loop.at, Swept(db, loop.rows, loop.at));
  }

  // One escalation from the tables found is one more row of the sweep.
  lemma EscalationSweeps(db: Db, now: int, loop: Loop, db': Db)
    requires DbOk(db) && LoopAt(db, now, loop) && loop.at < |loop.rows|
    requires HandedOver(Found(db, loop), loop.rows[loop.at].id, db')
    ensures db' == Swept(db, loop.rows, loop.at + 1)
  {
    hide Listing, DbOk;
    RowFound(db, now, loop);
    var swept, found, t := Swept(db, loop.rows, loop.at), Found(db, loop), loop.rows[loop.at];
    assert Swept(db, loop.rows, loop.at + 1) == Handed(swept, t.id);
    HandedFromFound(swept, t.id, db');
  }

  lemma HandedFromFound(db: Db, id: Id, db': Db)
    requires DbOk(db) && id in db.trials && db.trials[id].status in {TrialActive, TrialOverdue}
    requires HandedOver(Overdue(db, id), id, db')
    ensures db' == Handed(db, id)
  {
    assert db'.trials == db.trials[id := Escalated(db.trials[id])];
  }

  lemma StartListing(db: Db, now: int, writes: map<Id, nat>, order: seq<Id>)
    requires DbOk(db)
    ensures var (db', w) := StepWorker(db, now, writes, CdStart, order); CheckAt(db, now, db', w)
  {
    hide Lists, Listing;
    if Lists(db, now, order) {
      FetchLists(db, now, order);
    }
  }

  lemma NextRow(db: Db, now: int, db': Db, w: Worker, writes: map<Id, nat>, order: seq<Id>)
    requires DbOk(db) && CheckAt(db, now, db', w) && w.CdNext?
    ensures var (db'', w') := StepWorker(db', now, writes, w, order); CheckAt(db, now, db'', w')
  {
    hide Listing, Swept, DbOk, Checked;
    if w.loop.at < |w.loop.rows| {
      RowFound(db, now, w.loop);
    } else {
      SweepIsChecked(db, now, w.loop.rows);
    }
  }

  lemma Reloaded(db: Db, now: int, db': Db, w: Worker, writes: map<Id, nat>, order: seq<Id>)
    requires DbOk(db) && CheckAt(db, now, db', w) && w.CdReload?
    ensures var (db'', w') := StepWorker(db', now, writes, w, order); CheckAt(db, now, db'', w')
  {
    hide Listing, Swept, DbOk, Checked;
    RowFound(db, now, w.loop);
  }

  lemma RowEscalates(db: Db, now: int, loop: Loop, db': Db, w: Worker, writes: map<Id, nat>, order: seq<Id>)
    requires DbOk(db) && EscalatingRow(db, now, loop, db', w)
    ensures var (db'', w') := StepWorker(db', now, writes, w, order); CheckAt(db, now, db'', w')
  {
    hide Listing, Swept, DbOk, Checked, EscalateAt, StepWorker, Found;
    RowFound(db, now, loop);
    var found, id, caller := Found(db, loop), loop.rows[loop.at].id, FromCheck(loop);
    EscalationGoes(found, id, caller, db', w, now, writes, order);
    var (db'', w') := StepWorker(db', now, writes, w, order);
    if EscalateAt(found, id, caller, db'', w') {
      CallerKept(found, id, caller, db'', w');
    } else {
      EscalationSweeps(db, now, loop, db'');
    }
  }

  lemma CallerKept(db: Db, id: Id, caller: Caller, db': Db, w: Worker)
    requires EscalateAt(db, id, caller, db', w)
    ensures CallerOf(w) == Some(caller) && !w.CdStart? && !w.CdNext? && !w.CdReload? && !w.Counted?
  {
  }

  lemma CheckStep(db: Db, now: int, db': Db, w: Worker, writes: map<Id, nat>, order: seq<Id>)
    requires DbOk(db) && CheckAt(db, now, db', w)
    ensures var (db'', w') := StepWorker(db', now, writes, w, order); CheckAt(db, now, db'', w')
  {
    hide DbOk, EscalatingRow, Checked, Swept, Found, StepWorker;
    match w {
      case CdStart => StartListing(db, now, writes, order);
      case CdNext(_) => NextRow(db, now, db', w, writes, order);
      case CdReload(_) => Reloaded(db, now, db', w, writes, order);
      case Counted(_, _, _) => CountedRests(db', now, writes, w, order);
      case _ => RowEscalates(db, now, CallerOf(w).value.loop, db', w, writes, order);
    }
  }

  lemma CountedRests(db: Db, now: int, writes: map<Id, nat>, w: Worker, order: seq<Id>)
    requires w.Counted?
    ensures StepWorker(db, now, writes, w, order) == (db, w)
  {
  }

  lemma {:induction false} CheckGoes(db: Db, now: int, writes: map<Id, nat>, os: seq<seq<Id>>)
    requires DbOk(db)
    ensures var (db', w) := Alone(db, now, writes, CdStart, os); CheckAt(db, now, db', w)
  {
    hide StepWorker, DbOk;
    if os != [] {
      hide CheckAt;
      CheckGoes(db, now, writes, os[..|os| - 1]);
      var (db', w) := Alone(db, now, writes, CdStart, os[..|os| - 1]);
      CheckStep(db, now, db', w, writes, os[|os| - 1]);
    }
  }

  // From the call to its return, on any tables.
  lemma CheckDeadlinesReturns(
    db: Db, now: int, writes: map<Id, nat>, os: seq<seq<Id>>, db': Db, count: nat, listedAt: int, won: set<Id>)
    requires DbOk(db) && Alone(db, now, writes, CdStart, os) == (db', Counted(count, listedAt, won))
    ensures Checked(db, now, db', count)
  {
    hide Alone, Checked, DbOk;
    CheckGoes(db, now, writes, os);
  }
}
