// The trial service's calls from call to return, with nobody else moving: what
// each leaves in the tables and reports, told from the tables it found.
module TrialCalls {
  import opened Common
  import opened Status
  import opened TrialDb
  import opened TrialMachine
  import opened TrialAlone
  import TimeText

  // --- Escalate --------------------------------------------------------------------

  // Trial id is escalated, two versions on if it was still active, and its order
  // is the customer manager's, urged to accept.
  predicate HandedOver(db: Db, id: Id, db': Db) {
    && id in db.trials && db.trials[id].orderId in db.orders
    && var t := db.trials[id];
       var o := db.orders[t.orderId];
       db' == db.(
         trials := db.trials[id := t.(status := TrialEscalated,
                                      version := t.version + if t.status == TrialActive then 2 else 1)],
         orders := db.orders[t.orderId := o.(role := CustomerManager, mode := UrgeAccept, version := o.version + 1)])
  }

  predicate EscalateReturns(db: Db, id: Id, db': Db, failure: Option<Error>, did: bool) {
    if id !in db.trials then failure == Some(NotFound) && !did && db' == db
    else
      match db.trials[id].status
      case TrialActive => failure == None && did && HandedOver(db, id, db')
      case TrialOverdue => failure == None && did && HandedOver(db, id, db')
      case TrialEscalated => failure == None && !did && db' == db
      case TrialConverted => failure == None && !did && db' == db
      case TrialAccepted => failure == Some(IllegalTransition) && !did && db' == db
      case TrialPending => failure == Some(IllegalTransition) && !did && db' == db
  }

  function Marked(db: Db, id: Id): Db {
    if id in db.trials then
      db.(trials := db.trials[id := db.trials[id].(status := TrialOverdue, version := db.trials[id].version + 1)])
    else db
  }

  // The tables once the trial is known to be overdue.
  function Overdue(db: Db, id: Id): Db {
    if id in db.trials && db.trials[id].status == TrialActive then Marked(db, id) else db
  }

  predicate SnapAt(db: Db, id: Id, snap: Snapshot) {
    id in db.trials && db.trials[id].orderId in db.orders && snap.order == db.orders[db.trials[id].orderId]
  }

  // Where an escalation that found db stands.
  ghost predicate EscalateAt(db: Db, id: Id, caller: Caller, db': Db, w: Worker) {
    match w
    case EsTrial(i, c) => i == id && c == caller && db' == db
    case EsOrder(t, c) => c == caller && db' == db && id in db.trials && t == db.trials[id]
    case EsMarkOverdue(t, snap, c) =>
      c == caller && db' == db && SnapAt(db, id, snap) && t == db.trials[id] && t.status == TrialActive
    case EsReload(i, snap, c) =>
      i == id && c == caller && SnapAt(db, id, snap) && db.trials[id].status == TrialActive && db' == Marked(db, id)
    case EsMark(t, snap, c) =>
      && c == caller && SnapAt(db, id, snap) && db' == Overdue(db, id)
      && t == db'.trials[id] && t.status == TrialOverdue
    case EsTransfer(i, snap, c) =>
      && i == id && c == caller && SnapAt(db, id, snap) && db.trials[id].status in {TrialActive, TrialOverdue}
      && db' == Overdue(db, id).(trials := Overdue(db, id).trials[id := db.trials[id].(
           status := TrialEscalated, version := Overdue(db, id).trials[id].version + 1)])
    case _ => false
  }

  // The call goes on, or hands its outcome to its caller.
  ghost predicate EscalateGoes(db: Db, id: Id, caller: Caller, db': Db, w: Worker) {
    || EscalateAt(db, id, caller, db', w)
    || exists failure, did :: EscalateReturns(db, id, db', failure, did) && w == Resume(caller, failure, did, id)
  }

  lemma Resumes(db: Db, id: Id, caller: Caller, db': Db, failure: Option<Error>, did: bool)
    requires EscalateReturns(db, id, db', failure, did)
    ensures EscalateGoes(db, id, caller, db', Resume(caller, failure, did, id))
  {
  }

  lemma EscalationGoes(db: Db, id: Id, caller: Caller, db': Db, w: Worker, now: int, writes: map<Id, nat>, order: seq<Id>)
    requires DbOk(db) && EscalateAt(db, id, caller, db', w)
    ensures var (db'', w') := StepWorker(db', now, writes, w, order); EscalateGoes(db, id, caller, db'', w')
  {
    hide StepWorker, EscalateAt, EscalateGoes;
    match w {
      case EsTrial(_, _) => ReadStep(db, id, caller, db', w, now, writes, order);
      case EsOrder(_, _) => ReadStep(db, id, caller, db', w, now, writes, order);
      case EsMarkOverdue(_, _, _) => MarkStep(db, id, caller, db', w, now, writes, order);
      case EsReload(_, _, _) => MarkStep(db, id, caller, db', w, now, writes, order);
      case EsMark(_, _, _) => HandStep(db, id, caller, db', w, now, writes, order);
      case EsTransfer(_, _, _) => HandStep(db, id, caller, db', w, now, writes, order);
      case _ => assert false by { NotEscalating(db, id, caller, db', w); }
    }
  }

  lemma NotEscalating(db: Db, id: Id, caller: Caller, db': Db, w: Worker)
    requires EscalateAt(db, id, caller, db', w)
    ensures w.EsTrial? || w.EsOrder? || w.EsMarkOverdue? || w.EsReload? || w.EsMark? || w.EsTransfer?
  {
  }

  // Reading the trial and its order.
  lemma ReadStep(db: Db, id: Id, caller: Caller, db': Db, w: Worker, now: int, writes: map<Id, nat>, order: seq<Id>)
    requires DbOk(db) && EscalateAt(db, id, caller, db', w) && (w.EsTrial? || w.EsOrder?)
    ensures var (db'', w') := StepWorker(db', now, writes, w, order); EscalateGoes(db, id, caller, db'', w')
  {
    hide AssertTransition, Resume, EscalateReturns, HandedOver;
    if id !in db.trials {
      NothingThere(db, id);
      Resumes(db, id, caller, db, Some(NotFound), false);
    } else if w.EsOrder? {
      var t := db.trials[id];
      EscalatableFrom(t.status);
      if t.status == TrialEscalated || t.status == TrialConverted {
        AlreadyPassed(db, id);
        Resumes(db, id, caller, db, None, false);
      } else if t.status == TrialPending || t.status == TrialAccepted {
        NotEscalatable(db, id);
        Resumes(db, id, caller, db, Some(IllegalTransition), false);
      }
    }
  }

  lemma NothingThere(db: Db, id: Id)
    requires id !in db.trials
    ensures EscalateReturns(db, id, db, Some(NotFound), false)
  {
  }

  lemma AlreadyPassed(db: Db, id: Id)
    requires id in db.trials && db.trials[id].status in {TrialEscalated, TrialConverted}
    ensures EscalateReturns(db, id, db, None, false)
  {
  }

  lemma NotEscalatable(db: Db, id: Id)
    requires id in db.trials && db.trials[id].status in {TrialPending, TrialAccepted}
    ensures EscalateReturns(db, id, db, Some(IllegalTransition), false)
  {
  }

  // Marking an active trial overdue, and reading it back.
  lemma MarkStep(db: Db, id: Id, caller: Caller, db': Db, w: Worker, now: int, writes: map<Id, nat>, order: seq<Id>)
    requires DbOk(db) && EscalateAt(db, id, caller, db', w) && (w.EsMarkOverdue? || w.EsReload?)
    ensures var (db'', w') := StepWorker(db', now, writes, w, order); EscalateGoes(db, id, caller, db'', w')
  {
    hide AssertTransition, Resume, EscalateReturns;
    EscalatableFrom(TrialOverdue);
  }

  // Escalating the overdue trial, and handing its order over.
  lemma HandStep(db: Db, id: Id, caller: Caller, db': Db, w: Worker, now: int, writes: map<Id, nat>, order: seq<Id>)
    requires DbOk(db) && EscalateAt(db, id, caller, db', w) && (w.EsMark? || w.EsTransfer?)
    ensures var (db'', w') := StepWorker(db', now, writes, w, order); EscalateGoes(db, id, caller, db'', w')
  {
    hide AssertTransition, Resume;
    if w.EsTransfer? {
      HandoverComplete(db, id, db', w, now, writes, order);
      Resumes(db, id, caller, StepWorker(db', now, writes, w, order).0, None, true);
    }
  }

  lemma HandoverComplete(db: Db, id: Id, db': Db, w: Worker, now: int, writes: map<Id, nat>, order: seq<Id>)
    requires DbOk(db) && w.EsTransfer? && EscalateAt(db, id, w.caller, db', w)
    ensures StepWorker(db', now, writes, w, order).1 == Resume(w.caller, None, true, id)
    ensures EscalateReturns(db, id, StepWorker(db', now, writes, w, order).0, None, true)
  {
    hide AssertTransition, Resume;
    var after, marked := StepWorker(db', now, writes, w, order).0, Overdue(db, id);
    var t := db.trials[id].(status := TrialEscalated, version := marked.trials[id].version + 1);
    assert marked.trials[id := t] == db.trials[id := t];
    assert after.trials == db.trials[id := t];
  }

  // --- Accept and Convert ------------------------------------------------------------

  predicate AcceptReturns(db: Db, id: Id, actor: Id, db': Db, failure: Option<Error>, did: bool) {
    if id !in db.trials then failure == Some(NotFound) && !did && db' == db
    else
      var t := db.trials[id];
      match t.status
      case TrialAccepted => failure == None && !did && db' == db
      case TrialEscalated => failure == Some(VersionConflict) && !did && db' == db
      case TrialActive => failure == None && did && AcceptedBy(db, id, actor, db')
      case TrialOverdue => failure == None && did && AcceptedBy(db, id, actor, db')
      case TrialPending => failure == Some(IllegalTransition) && !did && db' == db
      case TrialConverted => failure == Some(IllegalTransition) && !did && db' == db
  }

  predicate AcceptedBy(db: Db, id: Id, actor: Id, db': Db) {
    && id in db.trials
    && db' == db.(trials := db.trials[id := db.trials[id].(
         status := TrialAccepted, acceptedBy := Some(actor), version := db.trials[id].version + 1)])
  }

  ghost predicate AcceptAt(db: Db, id: Id, actor: Id, db': Db, w: Worker) {
    match w
    case AcStart(i, a) => i == id && a == actor && db' == db
    case AcSet(t, a) =>
      && a == actor && db' == db && id in db.trials && t == db.trials[id]
      && t.status in {TrialActive, TrialOverdue, TrialEscalated}
    case Returned(failure, did) => AcceptReturns(db, id, actor, db', failure, did)
    case _ => false
  }

  lemma AcceptableFrom(s: TrialStatus)
    ensures AssertTransition(trialTransitions, s, TrialAccepted)
            <==> s in {TrialActive, TrialOverdue, TrialEscalated, TrialAccepted}
  {
    match s {
      case TrialPending =>
      case TrialActive =>
      case TrialAccepted =>
      case TrialOverdue =>
      case TrialEscalated =>
      case TrialConverted =>
    }
  }

  lemma AcceptStep(db: Db, id: Id, actor: Id, db': Db, w: Worker, now: int, writes: map<Id, nat>, order: seq<Id>)
    requires DbOk(db) && AcceptAt(db, id, actor, db', w)
    ensures var (db'', w') := StepWorker(db', now, writes, w, order); AcceptAt(db, id, actor, db'', w')
  {
    hide AssertTransition;
    if id in db.trials {
      AcceptableFrom(db.trials[id].status);
    }
  }

  lemma {:induction false} AcceptGoes(db: Db, id: Id, actor: Id, now: int, writes: map<Id, nat>, os: seq<seq<Id>>)
    requires DbOk(db)
    ensures var (db', w) := Alone(db, now, writes, AcStart(id, actor), os); AcceptAt(db, id, actor, db', w)
  {
    hide StepWorker, AcceptReturns;
    if os != [] {
      AcceptGoes(db, id, actor, now, writes, os[..|os| - 1]);
      var (db', w) := Alone(db, now, writes, AcStart(id, actor), os[..|os| - 1]);
      AcceptStep(db, id, actor, db', w, now, writes, os[|os| - 1]);
    }
  }

  lemma AcceptCallReturns(
    db: Db, id: Id, actor: Id, now: int, writes: map<Id, nat>, os: seq<seq<Id>>, db': Db, failure: Option<Error>, did: bool)
    requires DbOk(db) && Alone(db, now, writes, AcStart(id, actor), os) == (db', Returned(failure, did))
    ensures AcceptReturns(db, id, actor, db', failure, did)
  {
    hide Alone, AcceptReturns, DbOk;
    AcceptGoes(db, id, actor, now, writes, os);
  }

  predicate ConvertReturns(db: Db, id: Id, db': Db, failure: Option<Error>, did: bool) {
    if id !in db.trials then failure == Some(NotFound) && !did && db' == db
    else if db.trials[id].status == TrialConverted then failure == None && !did && db' == db
    else if db.trials[id].status != TrialEscalated then failure == Some(IllegalTransition) && !did && db' == db
    else failure == None && did && SoldOrRented(db, id, db')
  }

  // The escalated trial is converted and its order is the customer manager's, as
  // rent or sale.
  predicate SoldOrRented(db: Db, id: Id, db': Db) {
    && id in db.trials && db.trials[id].orderId in db.orders
    && var t := db.trials[id];
       var o := db.orders[t.orderId];
       db' == db.(
         trials := db.trials[id := t.(status := TrialConverted, version := t.version + 1)],
         orders := db.orders[t.orderId := o.(role := CustomerManager, mode := RentSale, version := o.version + 1)])
  }

  ghost predicate ConvertAt(db: Db, id: Id, db': Db, w: Worker) {
    match w
    case CvStart(i) => i == id && db' == db
    case CvMark(t) => db' == db && id in db.trials && t == db.trials[id] && t.status == TrialEscalated
    case CvOrder(o) => Converting(db, id, db') && o == db.trials[id].orderId
    case CvTransfer(o) =>
      Converting(db, id, db') && db.trials[id].orderId in db.orders && o == db.orders[db.trials[id].orderId]
    case Returned(failure, did) => ConvertReturns(db, id, db', failure, did)
    case _ => false
  }

  ghost predicate Converting(db: Db, id: Id, db': Db) {
    && id in db.trials && db.trials[id].status == TrialEscalated
    && db' == db.(trials := db.trials[id := db.trials[id].(status := TrialConverted, version := db.trials[id].version + 1)])
  }

  lemma ConvertStep(db: Db, id: Id, db': Db, w: Worker, now: int, writes: map<Id, nat>, order: seq<Id>)
    requires DbOk(db) && ConvertAt(db, id, db', w)
    ensures var (db'', w') := StepWorker(db', now, writes, w, order); ConvertAt(db, id, db'', w')
  {
    hide AssertTransition;
    if id in db.trials {
      ConvertibleFrom(db.trials[id].status);
    }
  }

  lemma {:induction false} ConvertGoes(db: Db, id: Id, now: int, writes: map<Id, nat>, os: seq<seq<Id>>)
    requires DbOk(db)
    ensures var (db', w) := Alone(db, now, writes, CvStart(id), os); ConvertAt(db, id, db', w)
  {
    hide StepWorker, ConvertReturns;
    if os != [] {
      ConvertGoes(db, id, now, writes, os[..|os| - 1]);
      var (db', w) := Alone(db, now, writes, CvStart(id), os[..|os| - 1]);
      ConvertStep(db, id, db', w, now, writes, os[|os| - 1]);
    }
  }

  lemma ConvertCallReturns(
    db: Db, id: Id, now: int, writes: map<Id, nat>, os: seq<seq<Id>>, db': Db, failure: Option<Error>, did: bool)
    requires DbOk(db) && Alone(db, now, writes, CvStart(id), os) == (db', Returned(failure, did))
    ensures ConvertReturns(db, id, db', failure, did)
  {
    hide Alone, ConvertReturns, DbOk;
    ConvertGoes(db, id, now, writes, os);
  }

  // --- a direct Escalate, from call to return ----------------------------------------

  ghost predicate DirectAt(db: Db, id: Id, db': Db, w: Worker) {
    || EscalateAt(db, id, Direct, db', w)
    || (w.Returned? && EscalateReturns(db, id, db', w.failure, w.did))
  }

  lemma DirectStep(db: Db, id: Id, db': Db, w: Worker, now: int, writes: map<Id, nat>, order: seq<Id>)
    requires DbOk(db) && DirectAt(db, id, db', w)
    ensures var (db'', w') := StepWorker(db', now, writes, w, order); DirectAt(db, id, db'', w')
  {
    hide EscalateAt, EscalateReturns, DbOk;
    if EscalateAt(db, id, Direct, db', w) {
      hide StepWorker;
      EscalationGoes(db, id, Direct, db', w, now, writes, order);
    }
  }

  lemma {:induction false} DirectGoes(db: Db, id: Id, now: int, writes: map<Id, nat>, os: seq<seq<Id>>)
    requires DbOk(db)
    ensures var (db', w) := Alone(db, now, writes, EsTrial(id, Direct), os); DirectAt(db, id, db', w)
  {
    hide StepWorker, EscalateReturns, DbOk;
    if os != [] {
      hide EscalateAt;
      DirectGoes(db, id, now, writes, os[..|os| - 1]);
      var (db', w) := Alone(db, now, writes, EsTrial(id, Direct), os[..|os| - 1]);
      DirectStep(db, id, db', w, now, writes, os[|os| - 1]);
    }
  }

  lemma EscalateCallReturns(
    db: Db, id: Id, now: int, writes: map<Id, nat>, os: seq<seq<Id>>, db': Db, failure: Option<Error>, did: bool)
    requires DbOk(db) && Alone(db, now, writes, EsTrial(id, Direct), os) == (db', Returned(failure, did))
    ensures EscalateReturns(db, id, db', failure, did)
  {
    hide Alone, EscalateReturns, DbOk;
    DirectGoes(db, id, now, writes, os);
  }
}
