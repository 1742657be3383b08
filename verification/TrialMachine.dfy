// Trial deadlines under concurrency: any number of CheckDeadlines, Escalate,
// Accept and Convert calls, one statement a step, interleaved with each other,
// with saga writes to the orders, crashes and the passing of time.
module TrialMachine {
  import opened Common
  import opened Status
  import opened TrialDb

  // The loop of CheckDeadlines over the rows it listed. won is a history
  // variable: which trials were counted.
  datatype Loop = Loop(listedAt: int, rows: seq<Trial>, at: nat, count: nat, won: set<Id>)

  // Escalate is called directly or from the loop.
  datatype Caller = Direct | FromCheck(loop: Loop)

  // seen is a history variable: how often the saga had written the order's row
  // when the snapshot was taken. So is wasActive: whether the call read the trial
  // active.
  datatype Snapshot = Snapshot(order: Order, seen: nat, wasActive: bool)

  datatype Worker =
    | CdStart
    | CdNext(loop: Loop)
    | CdReload(loop: Loop)
    | EsTrial(trialId: Id, caller: Caller)
    | EsOrder(trial: Trial, caller: Caller)
    | EsMarkOverdue(trial: Trial, snap: Snapshot, caller: Caller)
    | EsReload(trialId: Id, snap: Snapshot, caller: Caller)
    | EsMark(trial: Trial, snap: Snapshot, caller: Caller)
    | EsTransfer(trialId: Id, snap: Snapshot, caller: Caller)
    | AcStart(trialId: Id, actor: Id)
    | AcSet(trial: Trial, actor: Id)
    | CvStart(trialId: Id)
    | CvMark(trial: Trial)
    | CvOrder(orderId: Id)
    | CvTransfer(order: Order)
    | Counted(count: nat, listedAt: int, won: set<Id>)
    | Returned(failure: Option<Error>, did: bool)
  {
    predicate IsStart() {
      CdStart? || (EsTrial? && caller.Direct?) || AcStart? || CvStart?
    }
  }

  datatype Move =
    | Spawn(worker: nat, call: Worker)
    | StepOf(worker: nat, order: seq<Id>)
    | Crash(worker: nat)
    | Tick(now: int)
    | SagaWrite(orderId: Id)
    | AddTrial(trialId: Id, orderId: Id, deadline: int)
    | AddOrder(orderId: Id)

  // writes is a history variable: saga writes to each order's row.
  datatype Sys = Sys(db: Db, now: int, workers: map<nat, Worker>, writes: map<Id, nat>)

  function Writes(writes: map<Id, nat>, orderId: Id): nat {
    if orderId in writes then writes[orderId] else 0
  }

  function Init(): Sys {
    Sys(Db(map[], map[], map[]), 0, map[], map[])
  }

  // --- the programs --------------------------------------------------------------

  predicate Lists(db: Db, now: int, order: seq<Id>) {
    && (forall i, j | 0 <= i < j < |order| :: order[i] != order[j])
    && (set i | 0 <= i < |order| :: order[i]) == db.PastDeadline(now)
  }

  function Fetch(db: Db, now: int, order: seq<Id>): (rows: seq<Trial>)
    requires Lists(db, now, order)
    ensures |rows| == |order|
    ensures forall i | 0 <= i < |rows| :: order[i] in db.PastDeadline(now) && rows[i] == db.trials[order[i]]
  {
    assert forall i | 0 <= i < |order| :: order[i] in db.PastDeadline(now);
    seq(|order|, i requires 0 <= i < |order| => db.trials[order[i]])
  }

  function Skip(loop: Loop): Worker {
    CdNext(loop.(at := loop.at + 1))
  }

  // Escalate returns to its caller; the loop counts a trial it escalated and
  // goes on after an error.
  function Resume(caller: Caller, failure: Option<Error>, did: bool, trialId: Id): Worker {
    match caller
    case Direct => Returned(failure, did)
    case FromCheck(loop) =>
      if failure == None && did then
        CdNext(loop.(at := loop.at + 1, count := loop.count + 1, won := loop.won + {trialId}))
      else
        Skip(loop)
  }

  // Escalate once the trial is known not to be active any more.
  function Assert(trial: Trial, snap: Snapshot, caller: Caller): Worker {
    if AssertTransition(trialTransitions, trial.status, TrialEscalated) then EsMark(trial, snap, caller)
    else Resume(caller, Some(IllegalTransition), false, trial.id)
  }

  function StepWorker(db: Db, now: int, writes: map<Id, nat>, w: Worker, order: seq<Id>): (Db, Worker) {
    match w
    case CdStart =>
      (db, if Lists(db, now, order) then CdNext(Loop(now, Fetch(db, now, order), 0, 0, {})) else w)
    case CdNext(loop) =>
      if loop.at >= |loop.rows| then (db, Counted(loop.count, loop.listedAt, loop.won))
      else
        var t := loop.rows[loop.at];
        if t.status == TrialActive then
          match db.UpdateTrialStatus(t.id, TrialActive, TrialOverdue, t.version)
          case Ok(db') => (db', CdReload(loop))
          case Err(_) => (db, Skip(loop))
        else if t.status == TrialOverdue then (db, EsTrial(t.id, FromCheck(loop)))
        else (db, Skip(loop))
    case CdReload(loop) =>
      (db, if loop.at < |loop.rows| && loop.rows[loop.at].id in db.trials
              && db.trials[loop.rows[loop.at].id].status == TrialOverdue
           then EsTrial(loop.rows[loop.at].id, FromCheck(loop)) else Skip(loop))
    case EsTrial(id, caller) =>
      (db, if id in db.trials then EsOrder(db.trials[id], caller) else Resume(caller, Some(NotFound), false, id))
    case EsOrder(t, caller) =>
      if t.orderId !in db.orders then (db, Resume(caller, Some(NotFound), false, t.id))
      else
        var snap := Snapshot(db.orders[t.orderId], Writes(writes, t.orderId), t.status == TrialActive);
        (db, if t.status == TrialEscalated || t.status == TrialConverted then Resume(caller, None, false, t.id)
             else if t.status == TrialActive then EsMarkOverdue(t, snap, caller)
             else Assert(t, snap, caller))
    case EsMarkOverdue(t, snap, caller) =>
      (match db.UpdateTrialStatus(t.id, TrialActive, TrialOverdue, t.version)
       case Ok(db') => (db', EsReload(t.id, snap, caller))
       case Err(e) => (db, Resume(caller, Some(e), false, t.id)))
    case EsReload(id, snap, caller) =>
      (db, if id in db.trials then Assert(db.trials[id], snap, caller)
           else Resume(caller, Some(IllegalTransition), false, id))
    case EsMark(t, snap, caller) =>
      (match db.UpdateTrialStatus(t.id, t.status, TrialEscalated, t.version)
       case Ok(db') => (db', EsTransfer(t.id, snap, caller))
       case Err(e) => (db, Resume(caller, Some(e), false, t.id)))
    case EsTransfer(id, snap, caller) =>
      // A failed transfer is only logged.
      (match db.UpdateResponsibility(snap.order.id, CustomerManager, UrgeAccept, snap.order.version)
       case Ok(db') => (db', Resume(caller, None, true, id))
       case Err(_) => (db, Resume(caller, None, true, id)))
    case AcStart(id, actor) =>
      (db, if id !in db.trials then Returned(Some(NotFound), false)
           else if db.trials[id].status == TrialAccepted then Returned(None, false)
           else if !AssertTransition(trialTransitions, db.trials[id].status, TrialAccepted) then
             Returned(Some(IllegalTransition), false)
           else AcSet(db.trials[id], actor))
    case AcSet(t, actor) =>
      (match db.SetAccepted(t.id, actor, t.version)
       case Ok(db') => (db', Returned(None, true))
       case Err(e) => (db, Returned(Some(e), false)))
    case CvStart(id) =>
      (db, if id !in db.trials then Returned(Some(NotFound), false)
           else if db.trials[id].status == TrialConverted then Returned(None, false)
           else if !AssertTransition(trialTransitions, db.trials[id].status, TrialConverted) then
             Returned(Some(IllegalTransition), false)
           else CvMark(db.trials[id]))
    case CvMark(t) =>
      (match db.UpdateTrialStatus(t.id, t.status, TrialConverted, t.version)
       case Ok(db') => (db', CvOrder(t.orderId))
       case Err(e) => (db, Returned(Some(e), false)))
    case CvOrder(orderId) =>
      (db, if orderId in db.orders then CvTransfer(db.orders[orderId]) else Returned(None, true))
    case CvTransfer(o) =>
      (match db.UpdateResponsibility(o.id, CustomerManager, RentSale, o.version)
       case Ok(db') => (db', Returned(None, true))
       case Err(_) => (db, Returned(None, true)))
    case Counted(_, _, _) => (db, w)
    case Returned(_, _) => (db, w)
  }

  // --- the machine -----------------------------------------------------------------

  // A call that has returned stays on record.
  function Next(s: Sys, m: Move): Sys {
    match m
    case Spawn(w, call) =>
      if w !in s.workers && call.IsStart() then s.(workers := s.workers[w := call]) else s
    case StepOf(w, order) =>
      if w in s.workers then
        var (db', w') := StepWorker(s.db, s.now, s.writes, s.workers[w], order);
        s.(db := db', workers := s.workers[w := w'])
      else s
    case Crash(w) =>
      if w in s.workers && !s.workers[w].Counted? then s.(workers := s.workers - {w}) else s
    case Tick(now) => if s.now <= now then s.(now := now) else s
    case SagaWrite(o) => s.(db := s.db.TouchOrder(o), writes := s.writes[o := Writes(s.writes, o) + 1])
    case AddTrial(id, orderId, deadline) => s.(db := s.db.CreateTrial(id, orderId, deadline))
    case AddOrder(id) => s.(db := s.db.CreateOrder(id))
  }

  function Run(s: Sys, moves: seq<Move>): Sys {
    if moves == [] then s else Next(Run(s, moves[..|moves| - 1]), moves[|moves| - 1])
  }

  // --- what every step keeps -------------------------------------------------------

  // The moves a trial's status really makes. Accepting an escalated trial is in
  // the table but never happens; escalating it again can.
  predicate Onward(src: TrialStatus, dst: TrialStatus) {
    match src
    case TrialPending => dst == TrialPending
    case TrialActive => dst.TrialActive? || dst.TrialAccepted? || dst.TrialOverdue?
    case TrialOverdue => dst.TrialOverdue? || dst.TrialEscalated? || dst.TrialAccepted?
    case TrialEscalated => dst.TrialEscalated? || dst.TrialConverted?
    case TrialConverted => dst.TrialConverted?
    case TrialAccepted => dst.TrialAccepted?
  }

  predicate Passed(s: TrialStatus) { s.TrialEscalated? || s.TrialConverted? }

  predicate BeyondActive(s: TrialStatus) { !s.TrialPending? && !s.TrialActive? }

  ghost predicate TrialMoves(t: Trial, t': Trial) {
    && t'.id == t.id && t'.orderId == t.orderId && t'.deadline == t.deadline && Onward(t.status, t'.status)
    && (t.status.TrialAccepted? ==> t' == t)
  }

  // An order's row is as it was, or was handed over, or was written by the saga;
  // a handover is never undone.
  ghost predicate OrderMoves(o: Order, o': Order, sagaWrites: int) {
    && o'.id == o.id && (o.role == CustomerManager ==> o'.role == CustomerManager)
    && o.version + sagaWrites <= o'.version
    && (o'.version == o.version || o'.role == CustomerManager || 0 < sagaWrites)
  }

  ghost predicate Advances(db: Db, writes: map<Id, nat>, db': Db, writes': map<Id, nat>) {
    && (forall id | id in db.trials :: id in db'.trials && TrialMoves(db.trials[id], db'.trials[id]))
    && (forall o | o in db.orders :: o in db'.orders
                                     && Writes(writes, o) <= Writes(writes', o)
                                     && OrderMoves(db.orders[o], db'.orders[o], Writes(writes', o) - Writes(writes, o)))
  }

  ghost predicate DbOk(db: Db) {
    && (forall id | id in db.trials ::
          && db.trials[id].id == id && db.trials[id].orderId in db.orders
          && (db.trials[id].acceptedBy.Some? <==> db.trials[id].status.TrialAccepted?))
    && (forall o | o in db.orders :: db.orders[o].id == o)
  }

  // The snapshot's order has been handed over, is unchanged, or was written by
  // the saga since.
  ghost predicate SnapOk(db: Db, writes: map<Id, nat>, trialId: Id, snap: Snapshot) {
    && trialId in db.trials && snap.order.id == db.trials[trialId].orderId
    && snap.order.id in db.orders && snap.seen <= Writes(writes, snap.order.id)
    && snap.order.version + (Writes(writes, snap.order.id) - snap.seen) <= db.orders[snap.order.id].version
    && (|| db.orders[snap.order.id].role == CustomerManager
        || db.orders[snap.order.id].version == snap.order.version
        || snap.seen < Writes(writes, snap.order.id))
  }

  ghost predicate RowOk(db: Db, listedAt: int, t: Trial) {
    && t.id in db.trials && db.trials[t.id].orderId == t.orderId && db.trials[t.id].deadline == t.deadline
    && TimeText.TextBefore(t.deadline, listedAt)
    && (BeyondActive(t.status) ==> BeyondActive(db.trials[t.id].status))
  }

  ghost predicate WonOk(db: Db, listedAt: int, id: Id) {
    id in db.trials && Passed(db.trials[id].status) && TimeText.TextBefore(db.trials[id].deadline, listedAt)
  }

  ghost predicate LoopOk(db: Db, now: int, loop: Loop) {
    && loop.listedAt <= now && loop.count == |loop.won|
    && (forall i | 0 <= i < |loop.rows| :: RowOk(db, loop.listedAt, loop.rows[i]))
    && (forall id | id in loop.won :: WonOk(db, loop.listedAt, id))
  }

  // The loop called Escalate on its current row, seen overdue.
  ghost predicate CallOk(db: Db, now: int, trialId: Id, caller: Caller) {
    caller.FromCheck? ==>
      && LoopOk(db, now, caller.loop) && caller.loop.at < |caller.loop.rows|
      && trialId == caller.loop.rows[caller.loop.at].id
      && trialId in db.trials && BeyondActive(db.trials[trialId].status)
  }

  // What a worker's program counter and snapshots say about the tables.
  ghost predicate WorkerOk(db: Db, now: int, writes: map<Id, nat>, w: Worker) {
    match w
    case CdNext(loop) => LoopOk(db, now, loop)
    case CdReload(loop) => CallOk(db, now, if loop.at < |loop.rows| then loop.rows[loop.at].id else 0, FromCheck(loop))
    case EsTrial(id, caller) => CallOk(db, now, id, caller)
    case EsOrder(t, caller) =>
      && CallOk(db, now, t.id, caller) && (caller.FromCheck? ==> BeyondActive(t.status))
      && t.id in db.trials && t.orderId == db.trials[t.id].orderId
    case EsMarkOverdue(t, snap, caller) => caller.Direct? && snap.wasActive && SnapOk(db, writes, t.id, snap)
    case EsReload(id, snap, caller) => caller.Direct? && snap.wasActive && SnapOk(db, writes, id, snap)
    case EsMark(t, snap, caller) =>
      && CallOk(db, now, t.id, caller) && SnapOk(db, writes, t.id, snap)
      && (t.status == TrialOverdue || (caller.Direct? && snap.wasActive && t.status == TrialEscalated))
    case EsTransfer(id, snap, caller) =>
      && CallOk(db, now, id, caller) && SnapOk(db, writes, id, snap) && Passed(db.trials[id].status)
      && (caller.FromCheck? ==> id !in caller.loop.won && TimeText.TextBefore(db.trials[id].deadline, caller.loop.listedAt))
    case CvMark(t) => t.status == TrialEscalated
    case Counted(count, listedAt, won) => count == |won| && forall id | id in won :: WonOk(db, listedAt, id)
    case _ => true
  }

  // The trials a CheckDeadlines call has escalated so far.
  function Wins(w: Worker): set<Id> {
    match w
    case CdNext(loop) => loop.won
    case CdReload(loop) => loop.won
    case EsTrial(_, caller) => WonBy(caller)
    case EsOrder(_, caller) => WonBy(caller)
    case EsMarkOverdue(_, _, caller) => WonBy(caller)
    case EsReload(_, _, caller) => WonBy(caller)
    case EsMark(_, _, caller) => WonBy(caller)
    case EsTransfer(id, _, caller) => if caller.FromCheck? then caller.loop.won + {id} else {}
    case Counted(_, _, won) => won
    case _ => {}
  }

  function WonBy(caller: Caller): set<Id> {
    match caller
    case Direct => {}
    case FromCheck(loop) => loop.won
  }

  ghost predicate Apart(workers: map<nat, Worker>) {
    forall v, w | v in workers && w in workers && v != w :: Wins(workers[v]) !! Wins(workers[w])
  }

  ghost predicate Inv(s: Sys) {
    && DbOk(s.db)
    && (forall w | w in s.workers :: WorkerOk(s.db, s.now, s.writes, s.workers[w]))
    && Apart(s.workers)
  }

  lemma EscalatableFrom(s: TrialStatus)
    ensures AssertTransition(trialTransitions, s, TrialEscalated) <==> s.TrialOverdue? || s.TrialEscalated?
  {
    match s {
      case TrialPending =>
      case TrialActive =>
      case TrialAccepted =>
      case TrialOverdue =>
      case TrialEscalated =>
      case TrialConverted =>
    }
  }

  lemma ConvertibleFrom(s: TrialStatus)
    ensures AssertTransition(trialTransitions, s, TrialConverted) <==> s.TrialEscalated? || s.TrialConverted?
  {
    match s {
      case TrialPending =>
      case TrialActive =>
      case TrialAccepted =>
      case TrialOverdue =>
      case TrialEscalated =>
      case TrialConverted =>
    }
  }

  lemma TrialUpdated(db: Db, id: Id, src: TrialStatus, dst: TrialStatus, version: int, writes: map<Id, nat>)
    requires DbOk(db) && db.UpdateTrialStatus(id, src, dst, version).Ok? && Onward(src, dst)
    requires !src.TrialAccepted? && !dst.TrialAccepted?
    ensures var db' := db.UpdateTrialStatus(id, src, dst, version).value;
            DbOk(db') && Advances(db, writes, db', writes)
  {
  }

  lemma TrialAccepts(db: Db, id: Id, actor: Id, version: int, writes: map<Id, nat>)
    requires DbOk(db) && db.SetAccepted(id, actor, version).Ok?
    ensures var db' := db.SetAccepted(id, actor, version).value;
            DbOk(db') && Advances(db, writes, db', writes)
  {
  }

  lemma OrderHandedOver(db: Db, id: Id, mode: Mode, version: int, writes: map<Id, nat>)
    requires DbOk(db) && db.UpdateResponsibility(id, CustomerManager, mode, version).Ok?
    ensures var db' := db.UpdateResponsibility(id, CustomerManager, mode, version).value;
            DbOk(db') && Advances(db, writes, db', writes)
  {
  }

  lemma NothingMoves(db: Db, writes: map<Id, nat>)
    ensures Advances(db, writes, db, writes)
  {
  }

  // A worker's step moves the tables onward.
  lemma StepAdvances(db: Db, now: int, writes: map<Id, nat>, w: Worker, order: seq<Id>)
    requires DbOk(db) && WorkerOk(db, now, writes, w)
    ensures var (db', _) := StepWorker(db, now, writes, w, order);
            DbOk(db') && Advances(db, writes, db', writes)
  {
    hide DbOk, Advances, Lists, LoopOk, CallOk, SnapOk, AssertTransition, Assert, Resume, Skip;
    NothingMoves(db, writes);
    match w {
      case CdNext(loop) =>
        if loop.at < |loop.rows| && loop.rows[loop.at].status == TrialActive {
          var t := loop.rows[loop.at];
          if db.UpdateTrialStatus(t.id, TrialActive, TrialOverdue, t.version).Ok? {
            TrialUpdated(db, t.id, TrialActive, TrialOverdue, t.version, writes);
          }
        }
      case EsMarkOverdue(t, _, _) =>
        if db.UpdateTrialStatus(t.id, TrialActive, TrialOverdue, t.version).Ok? {
          TrialUpdated(db, t.id, TrialActive, TrialOverdue, t.version, writes);
        }
      case EsMark(t, _, _) =>
        if db.UpdateTrialStatus(t.id, t.status, TrialEscalated, t.version).Ok? {
          TrialUpdated(db, t.id, t.status, TrialEscalated, t.version, writes);
        }
      case EsTransfer(_, snap, _) =>
        if db.UpdateResponsibility(snap.order.id, CustomerManager, UrgeAccept, snap.order.version).Ok? {
          OrderHandedOver(db, snap.order.id, UrgeAccept, snap.order.version, writes);
        }
      case AcSet(t, actor) =>
        if db.SetAccepted(t.id, actor, t.version).Ok? {
          TrialAccepts(db, t.id, actor, t.version, writes);
        }
      case CvMark(t) =>
        if db.UpdateTrialStatus(t.id, t.status, TrialConverted, t.version).Ok? {
          TrialUpdated(db, t.id, t.status, TrialConverted, t.version, writes);
        }
      case CvTransfer(o) =>
        if db.UpdateResponsibility(o.id, CustomerManager, RentSale, o.version).Ok? {
          OrderHandedOver(db, o.id, RentSale, o.version, writes);
        }
      case _ =>
    }
  }

  // --- other workers' facts survive -------------------------------------------------

  lemma RowStable(db: Db, writes: map<Id, nat>, db': Db, writes': map<Id, nat>, listedAt: int, t: Trial)
    requires Advances(db, writes, db', writes') && RowOk(db, listedAt, t)
    ensures RowOk(db', listedAt, t)
  {
    hide TimeText.TextBefore;
  }

  lemma WonStable(db: Db, writes: map<Id, nat>, db': Db, writes': map<Id, nat>, listedAt: int, id: Id)
    requires Advances(db, writes, db', writes') && WonOk(db, listedAt, id)
    ensures WonOk(db', listedAt, id)
  {
    hide TimeText.TextBefore;
  }

  lemma LoopStable(db: Db, writes: map<Id, nat>, db': Db, writes': map<Id, nat>, now: int, now': int, loop: Loop)
    requires Advances(db, writes, db', writes') && now <= now' && LoopOk(db, now, loop)
    ensures LoopOk(db', now', loop)
  {
    hide Advances, RowOk, WonOk;
    forall i | 0 <= i < |loop.rows|
      ensures RowOk(db', loop.listedAt, loop.rows[i])
    {
      RowStable(db, writes, db', writes', loop.listedAt, loop.rows[i]);
    }
    forall id | id in loop.won
      ensures WonOk(db', loop.listedAt, id)
    {
      WonStable(db, writes, db', writes', loop.listedAt, id);
    }
  }

  lemma CallStable(db: Db, writes: map<Id, nat>, db': Db, writes': map<Id, nat>, now: int, now': int, id: Id, caller: Caller)
    requires Advances(db, writes, db', writes') && now <= now' && CallOk(db, now, id, caller)
    ensures CallOk(db', now', id, caller)
  {
    hide LoopOk;
    if caller.FromCheck? {
      LoopStable(db, writes, db', writes', now, now', caller.loop);
    }
  }

  lemma SnapStable(db: Db, writes: map<Id, nat>, db': Db, writes': map<Id, nat>, id: Id, snap: Snapshot)
    requires Advances(db, writes, db', writes') && SnapOk(db, writes, id, snap)
    ensures SnapOk(db', writes', id, snap)
  {
  }

  lemma WorkerStable(db: Db, writes: map<Id, nat>, db': Db, writes': map<Id, nat>, now: int, now': int, w: Worker)
    requires Advances(db, writes, db', writes') && now <= now' && WorkerOk(db, now, writes, w)
    ensures WorkerOk(db', now', writes', w)
  {
    hide LoopOk, CallOk, SnapOk, WonOk;
    match w {
      case CdNext(loop) => LoopStable(db, writes, db', writes', now, now', loop);
      case CdReload(loop) =>
        CallStable(db, writes, db', writes', now, now', if loop.at < |loop.rows| then loop.rows[loop.at].id else 0, FromCheck(loop));
      case EsTrial(id, caller) => CallStable(db, writes, db', writes', now, now', id, caller);
      case EsOrder(t, caller) => CallStable(db, writes, db', writes', now, now', t.id, caller);
      case EsMarkOverdue(t, snap, _) => SnapStable(db, writes, db', writes', t.id, snap);
      case EsReload(id, snap, _) => SnapStable(db, writes, db', writes', id, snap);
      case EsMark(t, snap, caller) =>
        CallStable(db, writes, db', writes', now, now', t.id, caller);
        SnapStable(db, writes, db', writes', t.id, snap);
      case EsTransfer(id, snap, caller) =>
        CallStable(db, writes, db', writes', now, now', id, caller);
        SnapStable(db, writes, db', writes', id, snap);
        SnapHasTrial(db, writes, id, snap);
      case Counted(_, listedAt, won) =>
        forall id | id in won
          ensures WonOk(db', listedAt, id)
        {
          WonStable(db, writes, db', writes', listedAt, id);
        }
      case _ =>
    }
  }

  lemma SnapHasTrial(db: Db, writes: map<Id, nat>, id: Id, snap: Snapshot)
    requires SnapOk(db, writes, id, snap)
    ensures id in db.trials
  {
  }

  // --- the stepping worker's own facts -----------------------------------------------

  lemma FreshLoopOk(db: Db, now: int, order: seq<Id>)
    requires DbOk(db) && Lists(db, now, order)
    ensures LoopOk(db, now, Loop(now, Fetch(db, now, order), 0, 0, {}))
  {
    hide Lists, TimeText.TextBefore;
    var rows := Fetch(db, now, order);
    forall i | 0 <= i < |rows|
      ensures RowOk(db, now, rows[i])
    {
      assert order[i] in db.PastDeadline(now);
    }
  }

  lemma ResumeOk(db: Db, now: int, writes: map<Id, nat>, caller: Caller, failure: Option<Error>, trialId: Id)
    requires CallOk(db, now, trialId, caller)
    ensures WorkerOk(db, now, writes, Resume(caller, failure, false, trialId))
    ensures Wins(Resume(caller, failure, false, trialId)) == WonBy(caller)
  {
    hide RowOk, WonOk;
  }

  lemma CountOk(db: Db, now: int, writes: map<Id, nat>, caller: Caller, id: Id)
    requires CallOk(db, now, id, caller) && id in db.trials && Passed(db.trials[id].status)
    requires caller.FromCheck? ==> id !in caller.loop.won && TimeText.TextBefore(db.trials[id].deadline, caller.loop.listedAt)
    ensures WorkerOk(db, now, writes, Resume(caller, None, true, id))
    ensures Wins(Resume(caller, None, true, id)) == if caller.FromCheck? then caller.loop.won + {id} else {}
  {
    hide RowOk, TimeText.TextBefore;
  }

  lemma AssertOk(db: Db, now: int, writes: map<Id, nat>, t: Trial, snap: Snapshot, caller: Caller)
    requires CallOk(db, now, t.id, caller) && SnapOk(db, writes, t.id, snap)
    requires (caller.Direct? && snap.wasActive) || !t.status.TrialEscalated?
    ensures WorkerOk(db, now, writes, Assert(t, snap, caller))
    ensures Wins(Assert(t, snap, caller)) == WonBy(caller)
  {
    hide CallOk, SnapOk, AssertTransition, Resume;
    EscalatableFrom(t.status);
    ResumeOk(db, now, writes, caller, Some(IllegalTransition), t.id);
  }

  // What a worker's step yields: its facts, and no new win but a trial that had
  // not been escalated before.
  ghost predicate GoodStep(db: Db, db': Db, now: int, writes: map<Id, nat>, w: Worker, w': Worker) {
    && WorkerOk(db', now, writes, w')
    && (forall id | id in Wins(w') && id !in Wins(w) :: id in db.trials && !Passed(db.trials[id].status))
  }

  lemma LoopStep(db: Db, now: int, writes: map<Id, nat>, w: Worker, order: seq<Id>)
    requires DbOk(db) && WorkerOk(db, now, writes, w) && (w.CdStart? || w.CdNext? || w.CdReload?)
    ensures var (db', w') := StepWorker(db, now, writes, w, order); GoodStep(db, db', now, writes, w, w')
  {
    hide DbOk, Lists, LoopOk, SnapOk, AssertTransition, Advances;
    match w {
      case CdStart =>
        if Lists(db, now, order) {
          FreshLoopOk(db, now, order);
        }
      case CdNext(loop) => NextStep(db, now, writes, loop, order);
      case CdReload(loop) =>
        LoopFacts(db, now, loop);
    }
  }

  lemma LoopFacts(db: Db, now: int, loop: Loop)
    requires LoopOk(db, now, loop)
    ensures forall i | 0 <= i < |loop.rows| ::
              && loop.rows[i].id in db.trials
              && (BeyondActive(loop.rows[i].status) ==> BeyondActive(db.trials[loop.rows[i].id].status))
    ensures loop.count == |loop.won| && LoopOk(db, now, loop.(at := loop.at + 1))
    ensures forall id | id in loop.won :: id in db.trials && Passed(db.trials[id].status)
  {
    hide TimeText.TextBefore;
    forall i | 0 <= i < |loop.rows|
      ensures loop.rows[i].id in db.trials
      ensures BeyondActive(loop.rows[i].status) ==> BeyondActive(db.trials[loop.rows[i].id].status)
    {
      assert RowOk(db, loop.listedAt, loop.rows[i]);
    }
    forall id | id in loop.won
      ensures id in db.trials && Passed(db.trials[id].status)
    {
      assert WonOk(db, loop.listedAt, id);
    }
  }

  lemma LoopWon(db: Db, now: int, loop: Loop)
    requires LoopOk(db, now, loop)
    ensures forall id | id in loop.won :: WonOk(db, loop.listedAt, id)
  {
    hide RowOk, WonOk;
  }

  lemma NextStep(db: Db, now: int, writes: map<Id, nat>, loop: Loop, order: seq<Id>)
    requires DbOk(db) && LoopOk(db, now, loop)
    ensures var (db', w') := StepWorker(db, now, writes, CdNext(loop), order);
            GoodStep(db, db', now, writes, CdNext(loop), w')
  {
    hide DbOk, LoopOk, SnapOk, Advances, WonOk, RowOk;
    LoopFacts(db, now, loop);
    LoopWon(db, now, loop);
    if loop.at < |loop.rows| {
      var t := loop.rows[loop.at];
      if t.status == TrialActive && db.UpdateTrialStatus(t.id, TrialActive, TrialOverdue, t.version).Ok? {
        var db' := db.UpdateTrialStatus(t.id, TrialActive, TrialOverdue, t.version).value;
        TrialUpdated(db, t.id, TrialActive, TrialOverdue, t.version, writes);
        LoopStable(db, writes, db', writes, now, now, loop);
      }
    }
  }

  lemma OrderStep(db: Db, now: int, writes: map<Id, nat>, t: Trial, caller: Caller, order: seq<Id>)
    requires DbOk(db) && WorkerOk(db, now, writes, EsOrder(t, caller))
    ensures var (db', w') := StepWorker(db, now, writes, EsOrder(t, caller), order);
            GoodStep(db, db', now, writes, EsOrder(t, caller), w')
  {
    hide CallOk, Resume, Assert;
    if t.orderId in db.orders {
      var snap := Snapshot(db.orders[t.orderId], Writes(writes, t.orderId), t.status == TrialActive);
      assert SnapOk(db, writes, t.id, snap);
      if t.status == TrialEscalated || t.status == TrialConverted {
        ResumeOk(db, now, writes, caller, None, t.id);
      } else if t.status != TrialActive {
        AssertOk(db, now, writes, t, snap, caller);
      }
    }
  }

  lemma MarkStep(db: Db, now: int, writes: map<Id, nat>, t: Trial, snap: Snapshot, caller: Caller, order: seq<Id>)
    requires DbOk(db) && WorkerOk(db, now, writes, EsMark(t, snap, caller))
    ensures var (db', w') := StepWorker(db, now, writes, EsMark(t, snap, caller), order);
            GoodStep(db, db', now, writes, EsMark(t, snap, caller), w')
  {
    hide DbOk, CallOk, SnapOk, Resume, Advances, TimeText.TextBefore;
    match db.UpdateTrialStatus(t.id, t.status, TrialEscalated, t.version) {
      case Ok(db') =>
        TrialUpdated(db, t.id, t.status, TrialEscalated, t.version, writes);
        CallStable(db, writes, db', writes, now, now, t.id, caller);
        SnapStable(db, writes, db', writes, t.id, snap);
        if caller.FromCheck? {
          CallFacts(db, now, t.id, caller);
        }
      case Err(e) =>
        ResumeOk(db, now, writes, caller, Some(e), t.id);
    }
  }

  lemma CallFacts(db: Db, now: int, id: Id, caller: Caller)
    requires CallOk(db, now, id, caller) && caller.FromCheck?
    ensures id in db.trials && TimeText.TextBefore(db.trials[id].deadline, caller.loop.listedAt)
    ensures forall won | won in caller.loop.won :: won in db.trials && Passed(db.trials[won].status)
  {
    hide TimeText.TextBefore;
    LoopFacts(db, now, caller.loop);
    assert RowOk(db, caller.loop.listedAt, caller.loop.rows[caller.loop.at]);
  }

  lemma TransferStep(db: Db, now: int, writes: map<Id, nat>, id: Id, snap: Snapshot, caller: Caller, order: seq<Id>)
    requires DbOk(db) && WorkerOk(db, now, writes, EsTransfer(id, snap, caller))
    ensures var (db', w') := StepWorker(db, now, writes, EsTransfer(id, snap, caller), order);
            GoodStep(db, db', now, writes, EsTransfer(id, snap, caller), w')
  {
    hide DbOk, CallOk, Resume, Advances, TimeText.TextBefore;
    match db.UpdateResponsibility(snap.order.id, CustomerManager, UrgeAccept, snap.order.version) {
      case Ok(db') =>
        OrderHandedOver(db, snap.order.id, UrgeAccept, snap.order.version, writes);
        CallStable(db, writes, db', writes, now, now, id, caller);
        CountOk(db', now, writes, caller, id);
      case Err(_) =>
        CountOk(db, now, writes, caller, id);
    }
  }

  lemma EscalateStep(db: Db, now: int, writes: map<Id, nat>, w: Worker, order: seq<Id>)
    requires DbOk(db) && WorkerOk(db, now, writes, w)
    requires w.EsTrial? || w.EsMarkOverdue? || w.EsReload?
    ensures var (db', w') := StepWorker(db, now, writes, w, order); GoodStep(db, db', now, writes, w, w')
  {
    hide CallOk, SnapOk, Resume, Assert, Advances;
    match w {
      case EsTrial(id, caller) =>
        if id !in db.trials {
          ResumeOk(db, now, writes, caller, Some(NotFound), id);
        } else if caller.FromCheck? {
          CallIsBeyond(db, now, id, caller);
        }
      case EsMarkOverdue(t, snap, caller) =>
        assert CallOk(db, now, t.id, caller) by { DirectCall(db, now, t.id); }
        match db.UpdateTrialStatus(t.id, TrialActive, TrialOverdue, t.version) {
          case Ok(db') =>
            TrialUpdated(db, t.id, TrialActive, TrialOverdue, t.version, writes);
            SnapStable(db, writes, db', writes, t.id, snap);
          case Err(e) =>
            ResumeOk(db, now, writes, caller, Some(e), t.id);
        }
      case EsReload(id, snap, caller) =>
        DirectCall(db, now, id);
        SnapHasTrial(db, writes, id, snap);
        AssertOk(db, now, writes, db.trials[id], snap, caller);
    }
  }

  lemma CallIsBeyond(db: Db, now: int, id: Id, caller: Caller)
    requires CallOk(db, now, id, caller) && caller.FromCheck?
    ensures id in db.trials && BeyondActive(db.trials[id].status)
  {
    hide LoopOk;
  }

  lemma DirectCall(db: Db, now: int, id: Id)
    ensures CallOk(db, now, id, Direct)
  {
  }

  // A step of any worker keeps its own facts and wins nothing won before.
  lemma StepGood(db: Db, now: int, writes: map<Id, nat>, w: Worker, order: seq<Id>)
    requires DbOk(db) && WorkerOk(db, now, writes, w)
    ensures var (db', w') := StepWorker(db, now, writes, w, order); GoodStep(db, db', now, writes, w, w')
  {
    match w {
      case CdStart => LoopStep(db, now, writes, w, order);
      case CdNext(_) => LoopStep(db, now, writes, w, order);
      case CdReload(_) => LoopStep(db, now, writes, w, order);
      case EsOrder(t, caller) => OrderStep(db, now, writes, t, caller, order);
      case EsMark(t, snap, caller) => MarkStep(db, now, writes, t, snap, caller, order);
      case EsTransfer(id, snap, caller) => TransferStep(db, now, writes, id, snap, caller, order);
      case EsTrial(_, _) => EscalateStep(db, now, writes, w, order);
      case EsMarkOverdue(_, _, _) => EscalateStep(db, now, writes, w, order);
      case EsReload(_, _, _) => EscalateStep(db, now, writes, w, order);
      case _ => OtherStep(db, now, writes, w, order);
    }
  }

  lemma OtherStep(db: Db, now: int, writes: map<Id, nat>, w: Worker, order: seq<Id>)
    requires DbOk(db) && WorkerOk(db, now, writes, w)
    requires w.AcStart? || w.AcSet? || w.CvStart? || w.CvMark? || w.CvOrder? || w.CvTransfer? || w.Counted? || w.Returned?
    ensures var (db', w') := StepWorker(db, now, writes, w, order); GoodStep(db, db', now, writes, w, w')
  {
    hide DbOk, AssertTransition;
    if w.CvStart? && w.trialId in db.trials {
      ConvertibleFrom(db.trials[w.trialId].status);
    }
  }

  // --- every move keeps the invariant ---------------------------------------------------

  lemma WinsPassed(db: Db, now: int, writes: map<Id, nat>, w: Worker)
    requires WorkerOk(db, now, writes, w)
    ensures forall id | id in Wins(w) :: id in db.trials && Passed(db.trials[id].status)
  {
    hide LoopOk, SnapOk, TimeText.TextBefore;
    match w {
      case CdNext(loop) => LoopFacts(db, now, loop);
      case CdReload(loop) => LoopFacts(db, now, loop);
      case EsTrial(_, caller) => CallWinsPassed(db, now, w.trialId, caller);
      case EsOrder(t, caller) => CallWinsPassed(db, now, t.id, caller);
      case EsMark(t, _, caller) => CallWinsPassed(db, now, t.id, caller);
      case EsTransfer(id, _, caller) => CallWinsPassed(db, now, id, caller);
      case Counted(_, listedAt, won) =>
        forall id | id in won
          ensures id in db.trials && Passed(db.trials[id].status)
        {
          assert WonOk(db, listedAt, id);
        }
      case _ =>
    }
  }

  lemma CallWinsPassed(db: Db, now: int, id: Id, caller: Caller)
    requires CallOk(db, now, id, caller)
    ensures forall won | won in WonBy(caller) :: won in db.trials && Passed(db.trials[won].status)
  {
    if caller.FromCheck? {
      LoopFacts(db, now, caller.loop);
    }
  }

  // Moving the tables onward and one worker by a good step keeps the invariant.
  lemma Stepped(s: Sys, w: nat, db': Db, w': Worker)
    requires Inv(s) && w in s.workers
    requires DbOk(db') && Advances(s.db, s.writes, db', s.writes)
    requires GoodStep(s.db, db', s.now, s.writes, s.workers[w], w')
    ensures Inv(s.(db := db', workers := s.workers[w := w']))
  {
    hide DbOk, WorkerOk, Advances, Wins;
    var s' := s.(db := db', workers := s.workers[w := w']);
    forall v | v in s'.workers
      ensures WorkerOk(db', s'.now, s'.writes, s'.workers[v])
    {
      if v != w {
        WorkerStable(s.db, s.writes, db', s.writes, s.now, s.now, s.workers[v]);
      }
    }
    forall v | v in s.workers && v != w
      ensures Wins(s.workers[v]) !! Wins(w')
    {
      WinsPassed(s.db, s.now, s.writes, s.workers[v]);
      assert Wins(s.workers[v]) !! Wins(s.workers[w]);
    }
  }

  lemma SagaWrites(s: Sys, o: Id)
    requires DbOk(s.db)
    ensures DbOk(s.db.TouchOrder(o))
    ensures Advances(s.db, s.writes, s.db.TouchOrder(o), s.writes[o := Writes(s.writes, o) + 1])
  {
  }

  lemma TrialAdded(s: Sys, id: Id, orderId: Id, deadline: int)
    requires DbOk(s.db)
    ensures DbOk(s.db.CreateTrial(id, orderId, deadline))
    ensures Advances(s.db, s.writes, s.db.CreateTrial(id, orderId, deadline), s.writes)
  {
  }

  lemma OrderAdded(s: Sys, id: Id)
    requires DbOk(s.db)
    ensures DbOk(s.db.CreateOrder(id))
    ensures Advances(s.db, s.writes, s.db.CreateOrder(id), s.writes)
  {
  }

  // The tables or the clock move on, no worker does.
  lemma MovedOn(s: Sys, s': Sys)
    requires Inv(s) && s'.workers == s.workers && s.now <= s'.now
    requires DbOk(s'.db) && Advances(s.db, s.writes, s'.db, s'.writes)
    ensures Inv(s')
  {
    hide DbOk, WorkerOk, Advances, Wins;
    forall v | v in s'.workers
      ensures WorkerOk(s'.db, s'.now, s'.writes, s'.workers[v])
    {
      WorkerStable(s.db, s.writes, s'.db, s'.writes, s.now, s'.now, s.workers[v]);
    }
  }

  lemma Spawned(s: Sys, w: nat, call: Worker)
    requires Inv(s) && w !in s.workers && call.IsStart()
    ensures Inv(s.(workers := s.workers[w := call]))
  {
    hide DbOk, Wins;
    assert WorkerOk(s.db, s.now, s.writes, call) && Wins(call) == {} by { StartOk(s.db, s.now, s.writes, call); }
  }

  lemma StartOk(db: Db, now: int, writes: map<Id, nat>, call: Worker)
    requires call.IsStart()
    ensures WorkerOk(db, now, writes, call) && Wins(call) == {}
  {
  }

  lemma NextKeeps(s: Sys, m: Move)
    requires Inv(s)
    ensures Inv(Next(s, m)) && Advances(s.db, s.writes, Next(s, m).db, Next(s, m).writes)
  {
    hide DbOk, WorkerOk, Advances, Wins, StepWorker, Apart, GoodStep;
    NothingMoves(s.db, s.writes);
    match m {
      case StepOf(w, order) =>
        if w in s.workers {
          var (db', w') := StepWorker(s.db, s.now, s.writes, s.workers[w], order);
          StepAdvances(s.db, s.now, s.writes, s.workers[w], order);
          StepGood(s.db, s.now, s.writes, s.workers[w], order);
          Stepped(s, w, db', w');
        }
      case Spawn(w, call) =>
        if w !in s.workers && call.IsStart() {
          Spawned(s, w, call);
        }
      case Crash(w) => Crashed(s, w);
      case Tick(now) => MovedOn(s, Next(s, m));
      case SagaWrite(o) =>
        SagaWrites(s, o);
        MovedOn(s, Next(s, m));
      case AddTrial(id, orderId, deadline) =>
        TrialAdded(s, id, orderId, deadline);
        MovedOn(s, Next(s, m));
      case AddOrder(id) =>
        OrderAdded(s, id);
        MovedOn(s, Next(s, m));
    }
  }

  lemma Crashed(s: Sys, w: nat)
    requires Inv(s)
    ensures Inv(s.(workers := s.workers - {w}))
  {
    hide DbOk, WorkerOk, Wins;
  }

  lemma {:induction false} RunKeeps(moves: seq<Move>)
    ensures Inv(Run(Init(), moves))
  {
    hide Next;
    if moves != [] {
      RunKeeps(moves[..|moves| - 1]);
      NextKeeps(Run(Init(), moves[..|moves| - 1]), moves[|moves| - 1]);
    }
  }
}
