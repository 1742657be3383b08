// What holds of every interleaved run of the trial calls.
module TrialSafety {
  import opened Common
  import opened Status
  import opened TrialDb
  import opened TrialMachine
  import TimeText

  // --- statuses ---------------------------------------------------------------------

  // The moves that happen are those of the transition table without accepting an
  // escalated trial (and without activating a pending one, which no call does).
  lemma OnwardAgainstTheTable(src: TrialStatus, dst: TrialStatus)
    ensures CanTransition(trialTransitions, src, dst)
            <==> (src != dst && Onward(src, dst))
                 || (src == TrialEscalated && dst == TrialAccepted) || (src == TrialPending && dst == TrialActive)
  {
    match src {
      case TrialPending =>
      case TrialActive =>
      case TrialAccepted =>
      case TrialOverdue =>
      case TrialEscalated =>
      case TrialConverted =>
    }
  }

  // No trial disappears, and each move of a run takes every trial onward; the
  // order a trial belongs to, once handed over, stays handed over.
  lemma TrialsMoveOnward(moves: seq<Move>, m: Move, id: Id)
    requires id in Run(Init(), moves).db.trials
    ensures id in Run(Init(), moves + [m]).db.trials
    ensures Onward(Run(Init(), moves).db.trials[id].status, Run(Init(), moves + [m]).db.trials[id].status)
    ensures var o := Run(Init(), moves).db.trials[id].orderId;
            && o in Run(Init(), moves).db.orders && o in Run(Init(), moves + [m]).db.orders
            && (Run(Init(), moves).db.orders[o].role == CustomerManager ==>
                  Run(Init(), moves + [m]).db.orders[o].role == CustomerManager)
  {
    hide Next, WorkerOk, Apart;
    RunKeeps(moves);
    assert (moves + [m])[..|moves|] == moves;
    NextKeeps(Run(Init(), moves), m);
    TrialMovesAt(Run(Init(), moves), Run(Init(), moves + [m]), id);
  }

  lemma TrialMovesAt(s: Sys, s': Sys, id: Id)
    requires DbOk(s.db) && Advances(s.db, s.writes, s'.db, s'.writes) && id in s.db.trials
    ensures id in s'.db.trials && Onward(s.db.trials[id].status, s'.db.trials[id].status)
    ensures var o := s.db.trials[id].orderId;
            && o in s.db.orders && o in s'.db.orders
            && (s.db.orders[o].role == CustomerManager ==> s'.db.orders[o].role == CustomerManager)
  {
  }

  // An acceptance names who accepted, exactly the accepted trials have one, and
  // nothing that runs later touches an accepted trial.
  lemma {:induction false} AcceptanceIsFinal(moves: seq<Move>, later: seq<Move>, id: Id)
    requires id in Run(Init(), moves).db.trials
    ensures var t := Run(Init(), moves).db.trials[id];
            && (t.acceptedBy.Some? <==> t.status == TrialAccepted)
            && (t.status == TrialAccepted ==>
                  id in Run(Init(), moves + later).db.trials && Run(Init(), moves + later).db.trials[id] == t)
  {
    hide Next, WorkerOk, Apart;
    RunKeeps(moves);
    if later == [] {
      assert moves + later == moves;
    } else {
      var front := later[..|later| - 1];
      AcceptanceIsFinal(moves, front, id);
      assert (moves + later)[..|moves + later| - 1] == moves + front;
      RunKeeps(moves + front);
      NextKeeps(Run(Init(), moves + front), later[|later| - 1]);
      if Run(Init(), moves).db.trials[id].status == TrialAccepted {
        AcceptedStays(Run(Init(), moves + front), Next(Run(Init(), moves + front), later[|later| - 1]), id);
      }
    }
  }

  lemma AcceptedStays(s: Sys, s': Sys, id: Id)
    requires Advances(s.db, s.writes, s'.db, s'.writes) && id in s.db.trials && s.db.trials[id].status == TrialAccepted
    ensures id in s'.db.trials && s'.db.trials[id] == s.db.trials[id]
  {
  }

  // --- counting ---------------------------------------------------------------------

  predicate Calls(s: Sys, calls: seq<nat>) {
    && (forall i, j | 0 <= i < j < |calls| :: calls[i] != calls[j])
    && (forall i | 0 <= i < |calls| :: calls[i] in s.workers && s.workers[calls[i]].Counted?)
  }

  function SumCounts(s: Sys, calls: seq<nat>): nat
    requires Calls(s, calls)
  {
    if calls == [] then 0
    else SumCounts(s, calls[..|calls| - 1]) + s.workers[calls[|calls| - 1]].count
  }

  // The trials any of the calls counted.
  function AllWon(s: Sys, calls: seq<nat>): set<Id>
    requires Calls(s, calls)
  {
    if calls == [] then {}
    else AllWon(s, calls[..|calls| - 1]) + s.workers[calls[|calls| - 1]].won
  }

  function PassedTrials(db: Db): set<Id> {
    set id | id in db.trials && Passed(db.trials[id].status)
  }

  lemma {:induction false} WonApart(s: Sys, calls: seq<nat>, w: nat)
    requires Apart(s.workers) && Calls(s, calls) && w in s.workers && s.workers[w].Counted? && w !in calls
    ensures AllWon(s, calls) !! s.workers[w].won
  {
    if calls != [] {
      var last := calls[|calls| - 1];
      WonApart(s, calls[..|calls| - 1], w);
      assert Wins(s.workers[last]) !! Wins(s.workers[w]);
    }
  }

  lemma {:induction false} CountsAddUp(s: Sys, calls: seq<nat>)
    requires Inv(s) && Calls(s, calls)
    ensures SumCounts(s, calls) == |AllWon(s, calls)|
    ensures forall id | id in AllWon(s, calls) :: id in s.db.trials && Passed(s.db.trials[id].status)
  {
    hide DbOk, Apart, WonOk;
    if calls != [] {
      var front, last := calls[..|calls| - 1], calls[|calls| - 1];
      CountsAddUp(s, front);
      assert last !in front;
      WonApart(s, front, last);
      assert WorkerOk(s.db, s.now, s.writes, s.workers[last]);
      WinsPassed(s.db, s.now, s.writes, s.workers[last]);
    }
  }

  // However many CheckDeadlines calls ran and raced, the counts they returned
  // add up to distinct trials, each escalated (or converted since).
  lemma EachTrialCountedOnce(moves: seq<Move>, calls: seq<nat>)
    requires Calls(Run(Init(), moves), calls)
    ensures var s := Run(Init(), moves);
            && SumCounts(s, calls) == |AllWon(s, calls)|
            && (forall id | id in AllWon(s, calls) :: id in s.db.trials && Passed(s.db.trials[id].status))
            && SumCounts(s, calls) <= |PassedTrials(s.db)|
  {
    hide Run, SumCounts, AllWon, Calls;
    RunKeeps(moves);
    var s := Run(Init(), moves);
    CountsAddUp(s, calls);
    SubsetSize(AllWon(s, calls), PassedTrials(s.db));
  }

  lemma {:induction false} SubsetSize<T>(a: set<T>, b: set<T>)
    requires a <= b
    ensures |a| <= |b|
    decreases a
  {
    if a != {} {
      var x :| x in a;
      SubsetSize(a - {x}, b - {x});
    }
  }

  // A call's count is the number of trials it escalated, each past its deadline
  // when the call listed it; two calls never count the same trial.
  lemma CountIsWhatWasEscalated(moves: seq<Move>, v: nat, w: nat)
    requires w in Run(Init(), moves).workers && Run(Init(), moves).workers[w].Counted?
    ensures var s := Run(Init(), moves);
            && s.workers[w].count == |s.workers[w].won|
            && (forall id | id in s.workers[w].won ::
                  && id in s.db.trials && Passed(s.db.trials[id].status)
                  && TimeText.TextBefore(s.db.trials[id].deadline, s.workers[w].listedAt))
            && (v in s.workers && v != w && s.workers[v].Counted? ==> s.workers[v].won !! s.workers[w].won)
  {
    hide Run, TimeText.TextBefore, DbOk;
    RunKeeps(moves);
    var s := Run(Init(), moves);
    assert WorkerOk(s.db, s.now, s.writes, s.workers[w]);
    forall id | id in s.workers[w].won
      ensures id in s.db.trials && Passed(s.db.trials[id].status)
      ensures TimeText.TextBefore(s.db.trials[id].deadline, s.workers[w].listedAt)
    {
      assert WonOk(s.db, s.workers[w].listedAt, id);
    }
    if v in s.workers && v != w && s.workers[v].Counted? {
      assert Wins(s.workers[v]) !! Wins(s.workers[w]);
    }
  }

  // --- handing the order over ----------------------------------------------------------

  function SagaWritesIn(moves: seq<Move>, o: Id): nat {
    if moves == [] then 0
    else SagaWritesIn(moves[..|moves| - 1], o) + if moves[|moves| - 1] == SagaWrite(o) then 1 else 0
  }

  lemma {:induction false} WritesCountMoves(moves: seq<Move>, o: Id)
    ensures Writes(Run(Init(), moves).writes, o) == SagaWritesIn(moves, o)
  {
    hide StepWorker;
    if moves != [] {
      WritesCountMoves(moves[..|moves| - 1], o);
    }
  }

  // Escalate's snapshot of the order notes how many saga writes came before.
  lemma SnapshotNotesWrites(moves: seq<Move>, w: nat, order: seq<Id>)
    requires w in Run(Init(), moves).workers && Run(Init(), moves).workers[w].EsOrder?
    ensures var w' := Run(Init(), moves + [StepOf(w, order)]).workers[w];
            w'.EsMark? || w'.EsMarkOverdue? ==>
              w'.snap.seen == SagaWritesIn(moves, Run(Init(), moves).workers[w].trial.orderId)
  {
    hide Run, Next, StepWorker;
    RunNext(moves, StepOf(w, order));
    WritesCountMoves(moves, Run(Init(), moves).workers[w].trial.orderId);
    SnapshotOf(Run(Init(), moves), w, order);
  }

  lemma SnapshotOf(s: Sys, w: nat, order: seq<Id>)
    requires w in s.workers && s.workers[w].EsOrder?
    ensures var w' := Next(s, StepOf(w, order)).workers[w];
            w'.EsMark? || w'.EsMarkOverdue? ==> w'.snap.seen == Writes(s.writes, s.workers[w].trial.orderId)
  {
    hide AssertTransition;
  }

  // Once the winning escalation has run its responsibility update, the trial's
  // order belongs to the customer manager if and only if it did already or the
  // saga has not written the order since the escalation read it. A racing
  // Convert that makes the update fail has handed the order over itself.
  lemma EscalationHandsOver(moves: seq<Move>, w: nat, order: seq<Id>)
    requires w in Run(Init(), moves).workers && Run(Init(), moves).workers[w].EsTransfer?
    ensures var s, s' := Run(Init(), moves), Run(Init(), moves + [StepOf(w, order)]);
            var e := s.workers[w];
            && e.trialId in s.db.trials && Passed(s.db.trials[e.trialId].status)
            && var o := s.db.trials[e.trialId].orderId;
               && o in s.db.orders && o in s'.db.orders
               && (s'.db.orders[o].role == CustomerManager <==>
                     s.db.orders[o].role == CustomerManager || SagaWritesIn(moves, o) == e.snap.seen)
  {
    hide Run, DbOk, Apart, SagaWritesIn;
    RunKeeps(moves);
    var s := Run(Init(), moves);
    RunNext(moves, StepOf(w, order));
    assert WorkerOk(s.db, s.now, s.writes, s.workers[w]);
    WritesCountMoves(moves, s.workers[w].snap.order.id);
    TransferHandsOver(s.db, s.now, s.writes, s.workers[w], order);
  }

  lemma RunNext(moves: seq<Move>, m: Move)
    ensures Run(Init(), moves + [m]) == Next(Run(Init(), moves), m)
  {
    hide Next;
    assert (moves + [m])[..|moves|] == moves;
  }

  lemma TransferHandsOver(db: Db, now: int, writes: map<Id, nat>, e: Worker, order: seq<Id>)
    requires e.EsTransfer? && WorkerOk(db, now, writes, e)
    ensures var (db', _) := StepWorker(db, now, writes, e, order);
            && e.trialId in db.trials && Passed(db.trials[e.trialId].status)
            && var o := db.trials[e.trialId].orderId;
               && o == e.snap.order.id && o in db.orders && o in db'.orders
               && (db'.orders[o].role == CustomerManager <==>
                     db.orders[o].role == CustomerManager || Writes(writes, o) == e.snap.seen)
  {
    hide CallOk, Resume;
  }

  // --- when a true is this call's own ---------------------------------------------------

  // A status update that succeeds into the handover escalated the trial itself,
  // and did not find it escalated already, exactly when the row it was made from
  // was overdue. Only a direct call that read the trial active before can have
  // escalated an escalated trial again, and it did exactly when its reload after
  // marking the trial overdue found it escalated.
  lemma EscalatesItselfExactly(moves: seq<Move>, w: nat, order: seq<Id>)
    requires w in Run(Init(), moves).workers && Run(Init(), moves).workers[w].EsMark?
    requires Run(Init(), moves + [StepOf(w, order)]).workers[w].EsTransfer?
    ensures var s, s' := Run(Init(), moves), Run(Init(), moves + [StepOf(w, order)]);
            var e := s.workers[w];
            && e.trial.id in s.db.trials && e.trial.id in s'.db.trials
            && s'.db.trials[e.trial.id].status == TrialEscalated
            && (!Passed(s.db.trials[e.trial.id].status) <==> e.trial.status == TrialOverdue)
            && (Passed(s.db.trials[e.trial.id].status) <==>
                  e.caller.Direct? && e.snap.wasActive && e.trial.status == TrialEscalated)
  {
    hide Run, DbOk, Apart;
    RunKeeps(moves);
    RunNext(moves, StepOf(w, order));
    var s := Run(Init(), moves);
    assert WorkerOk(s.db, s.now, s.writes, s.workers[w]);
    MarkWrites(s.db, s.now, s.writes, s.workers[w], order);
  }

  lemma MarkWrites(db: Db, now: int, writes: map<Id, nat>, e: Worker, order: seq<Id>)
    requires e.EsMark? && WorkerOk(db, now, writes, e) && StepWorker(db, now, writes, e, order).1.EsTransfer?
    ensures var db' := StepWorker(db, now, writes, e, order).0;
            && e.trial.id in db.trials && db.trials[e.trial.id].status == e.trial.status
            && e.trial.id in db'.trials && db'.trials[e.trial.id].status == TrialEscalated
  {
    hide CallOk, SnapOk;
  }

  // The snapshot says truly whether the trial was read active, and a row that is
  // escalated again is the one the reload found.
  lemma MarksFromReadOrReload(moves: seq<Move>, w: nat, order: seq<Id>)
    requires w in Run(Init(), moves).workers && w in Run(Init(), moves + [StepOf(w, order)]).workers
    requires !Run(Init(), moves).workers[w].EsMark? && Run(Init(), moves + [StepOf(w, order)]).workers[w].EsMark?
    ensures var s := Run(Init(), moves);
            var e, e' := s.workers[w], Run(Init(), moves + [StepOf(w, order)]).workers[w];
            if e.EsOrder? then e'.trial == e.trial && e'.trial.status == TrialOverdue && !e'.snap.wasActive
            else
              && e.EsReload? && e'.snap == e.snap && e'.snap.wasActive
              && e.trialId in s.db.trials && e'.trial == s.db.trials[e.trialId]
              && e'.trial.status in {TrialOverdue, TrialEscalated}
  {
    hide Run, DbOk, Apart;
    RunKeeps(moves);
    RunNext(moves, StepOf(w, order));
    var s := Run(Init(), moves);
    assert WorkerOk(s.db, s.now, s.writes, s.workers[w]);
    MarksFrom(s.db, s.now, s.writes, s.workers[w], order);
  }

  lemma MarksFrom(db: Db, now: int, writes: map<Id, nat>, e: Worker, order: seq<Id>)
    requires WorkerOk(db, now, writes, e) && !e.EsMark? && StepWorker(db, now, writes, e, order).1.EsMark?
    ensures var e' := StepWorker(db, now, writes, e, order).1;
            if e.EsOrder? then e'.trial == e.trial && e'.trial.status == TrialOverdue && !e'.snap.wasActive
            else
              && e.EsReload? && e'.snap == e.snap && e'.snap.wasActive
              && e.trialId in db.trials && e'.trial == db.trials[e.trialId]
              && e'.trial.status in {TrialOverdue, TrialEscalated}
  {
    hide CallOk, SnapOk, AssertTransition, StepWorker;
    MarkComesAfter(db, now, writes, e, order);
    if e.EsOrder? {
      MarkFromRead(db, now, writes, e, order);
    } else {
      MarkFromReload(db, now, writes, e, order);
    }
  }

  lemma MarkComesAfter(db: Db, now: int, writes: map<Id, nat>, e: Worker, order: seq<Id>)
    requires !e.EsMark? && StepWorker(db, now, writes, e, order).1.EsMark?
    ensures e.EsOrder? || e.EsReload?
  {
    hide Lists, AssertTransition;
  }

  lemma MarkFromRead(db: Db, now: int, writes: map<Id, nat>, e: Worker, order: seq<Id>)
    requires e.EsOrder? && StepWorker(db, now, writes, e, order).1.EsMark?
    ensures var e' := StepWorker(db, now, writes, e, order).1;
            e'.trial == e.trial && e'.trial.status == TrialOverdue && !e'.snap.wasActive
  {
    hide AssertTransition;
    EscalatableFrom(e.trial.status);
  }

  lemma MarkFromReload(db: Db, now: int, writes: map<Id, nat>, e: Worker, order: seq<Id>)
    requires e.EsReload? && WorkerOk(db, now, writes, e) && StepWorker(db, now, writes, e, order).1.EsMark?
    ensures var e' := StepWorker(db, now, writes, e, order).1;
            && e'.snap == e.snap && e'.snap.wasActive
            && e.trialId in db.trials && e'.trial == db.trials[e.trialId]
            && e'.trial.status in {TrialOverdue, TrialEscalated}
  {
    hide AssertTransition, SnapOk;
    if e.trialId in db.trials {
      EscalatableFrom(db.trials[e.trialId].status);
    }
  }

  // --- escalating twice --------------------------------------------------------------

  ghost predicate Reachable(s: Sys) {
    exists moves :: Run(Init(), moves) == s
  }

  lemma Reach(s: Sys, m: Move)
    requires Reachable(s)
    ensures Reachable(Next(s, m))
  {
    var moves :| Run(Init(), moves) == s;
    RunNext(moves, m);
  }

  lemma ReachInit()
    ensures Reachable(Init())
  {
    assert Run(Init(), []) == Init();
  }

  function TrialAt(status: TrialStatus, version: int): Trial {
    Trial(7, 1, 0, status, None, version)
  }

  const BEFORE := Order(1, FieldEngineer, OnSiteDebug, 1)
  const AFTER := Order(1, CustomerManager, UrgeAccept, 2)

  function OneTrial(status: TrialStatus, version: int, o: Order): Db {
    Db(map[7 := TrialAt(status, version)], map[1 := 7], map[1 := o])
  }

  lemma Marks(src: TrialStatus, version: int, dst: TrialStatus, o: Order)
    ensures OneTrial(src, version, o).UpdateTrialStatus(7, src, dst, version) == Ok(OneTrial(dst, version + 1, o))
  {
    assert map[7 := TrialAt(src, version)][7 := TrialAt(dst, version + 1)] == map[7 := TrialAt(dst, version + 1)];
  }

  lemma HandsOver(status: TrialStatus, version: int)
    ensures OneTrial(status, version, BEFORE).UpdateResponsibility(1, CustomerManager, UrgeAccept, 1)
            == Ok(OneTrial(status, version, AFTER))
  {
    assert map[1 := BEFORE][1 := AFTER] == map[1 := AFTER];
  }

  // One order with one trial, and two direct calls of Escalate on it.
  function Racing(status: TrialStatus, version: int, o: Order, first: Worker, second: Worker): Sys {
    Sys(OneTrial(status, version, o), 0, map[0 := first, 1 := second], map[])
  }

  lemma ReachRacing()
    ensures Reachable(Racing(TrialActive, 1, BEFORE, EsTrial(7, Direct), EsTrial(7, Direct)))
  {
    hide Reachable;
    ReachInit();
    Reach(Init(), AddOrder(1));
    var s1 := Next(Init(), AddOrder(1));
    Reach(s1, AddTrial(7, 1, 0));
    var s2 := Next(s1, AddTrial(7, 1, 0));
    Reach(s2, Spawn(0, EsTrial(7, Direct)));
    var s3 := Next(s2, Spawn(0, EsTrial(7, Direct)));
    Reach(s3, Spawn(1, EsTrial(7, Direct)));
    var s4 := Next(s3, Spawn(1, EsTrial(7, Direct)));
    assert s4 == Racing(TrialActive, 1, BEFORE, EsTrial(7, Direct), EsTrial(7, Direct));
  }

  lemma FirstMoves(s: Sys, w: Worker, db': Db)
    requires Reachable(s) && 0 in s.workers && StepWorker(s.db, s.now, s.writes, s.workers[0], []) == (db', w)
    ensures Reachable(s.(db := db', workers := s.workers[0 := w]))
  {
    hide Reachable, StepWorker;
    Reach(s, StepOf(0, []));
  }

  lemma SecondMoves(s: Sys, w: Worker, db': Db)
    requires Reachable(s) && 1 in s.workers && StepWorker(s.db, s.now, s.writes, s.workers[1], []) == (db', w)
    ensures Reachable(s.(db := db', workers := s.workers[1 := w]))
  {
    hide Reachable, StepWorker;
    Reach(s, StepOf(1, []));
  }

  // The first call has marked the trial overdue when the second reads it,
  // escalates it and hands the order over.
  lemma SecondWins()
    ensures var snap := Snapshot(BEFORE, 0, true);
            Reachable(Racing(TrialEscalated, 3, AFTER, EsReload(7, snap, Direct), Returned(None, true)))
  {
    hide Reachable, AssertTransition, trialTransitions;
    ReachRacing();
    var snap := Snapshot(BEFORE, 0, true);
    var a, o := TrialAt(TrialActive, 1), TrialAt(TrialOverdue, 2);
    var s := Racing(TrialActive, 1, BEFORE, EsTrial(7, Direct), EsTrial(7, Direct));
    FirstMoves(s, EsOrder(a, Direct), s.db);
    var s1 := Racing(TrialActive, 1, BEFORE, EsOrder(a, Direct), EsTrial(7, Direct));
    assert s1 == s.(workers := s.workers[0 := EsOrder(a, Direct)]);
    FirstMoves(s1, EsMarkOverdue(a, snap, Direct), s1.db);
    var s2 := Racing(TrialActive, 1, BEFORE, EsMarkOverdue(a, snap, Direct), EsTrial(7, Direct));
    assert s2 == s1.(workers := s1.workers[0 := EsMarkOverdue(a, snap, Direct)]);
    var s3 := Racing(TrialOverdue, 2, BEFORE, EsReload(7, snap, Direct), EsTrial(7, Direct));
    Marks(TrialActive, 1, TrialOverdue, BEFORE);
    FirstMoves(s2, EsReload(7, snap, Direct), s3.db);
    assert s3 == s2.(db := s3.db, workers := s2.workers[0 := EsReload(7, snap, Direct)]);
    FinishSecond(snap, o);
  }

  lemma FinishSecond(snap: Snapshot, o: Trial)
    requires snap == Snapshot(BEFORE, 0, true) && o == TrialAt(TrialOverdue, 2)
    requires Reachable(Racing(TrialOverdue, 2, BEFORE, EsReload(7, snap, Direct), EsTrial(7, Direct)))
    ensures Reachable(Racing(TrialEscalated, 3, AFTER, EsReload(7, snap, Direct), Returned(None, true)))
  {
    hide Reachable, AssertTransition, trialTransitions;
    var first := EsReload(7, snap, Direct);
    var read := Snapshot(BEFORE, 0, false);
    var s := Racing(TrialOverdue, 2, BEFORE, first, EsTrial(7, Direct));
    SecondMoves(s, EsOrder(o, Direct), s.db);
    var s1 := Racing(TrialOverdue, 2, BEFORE, first, EsOrder(o, Direct));
    assert s1 == s.(workers := s.workers[1 := EsOrder(o, Direct)]);
    EscalatableFrom(TrialOverdue);
    SecondMoves(s1, EsMark(o, read, Direct), s1.db);
    var s2 := Racing(TrialOverdue, 2, BEFORE, first, EsMark(o, read, Direct));
    assert s2 == s1.(workers := s1.workers[1 := EsMark(o, read, Direct)]);
    var s3 := Racing(TrialEscalated, 3, BEFORE, first, EsTransfer(7, read, Direct));
    Marks(TrialOverdue, 2, TrialEscalated, BEFORE);
    SecondMoves(s2, EsTransfer(7, read, Direct), s3.db);
    assert s3 == s2.(db := s3.db, workers := s2.workers[1 := EsTransfer(7, read, Direct)]);
    var s4 := Racing(TrialEscalated, 3, AFTER, first, Returned(None, true));
    HandsOver(TrialEscalated, 3);
    SecondMoves(s3, Returned(None, true), s4.db);
    assert s4 == s3.(db := s4.db, workers := s3.workers[1 := Returned(None, true)]);
  }

  // Two direct calls of Escalate can both report that they escalated the same
  // trial: the loser of the race reloads it escalated, which AssertTransition
  // lets pass, and escalates it again.
  lemma DirectCallsCanBothEscalate()
    ensures Reachable(Racing(TrialEscalated, 4, AFTER, Returned(None, true), Returned(None, true)))
  {
    hide Reachable, AssertTransition, trialTransitions;
    SecondWins();
    var snap, e := Snapshot(BEFORE, 0, true), TrialAt(TrialEscalated, 3);
    var won := Returned(None, true);
    var s := Racing(TrialEscalated, 3, AFTER, EsReload(7, snap, Direct), won);
    EscalatableFrom(TrialEscalated);
    FirstMoves(s, EsMark(e, snap, Direct), s.db);
    var s1 := Racing(TrialEscalated, 3, AFTER, EsMark(e, snap, Direct), won);
    assert s1 == s.(workers := s.workers[0 := EsMark(e, snap, Direct)]);
    var s2 := Racing(TrialEscalated, 4, AFTER, EsTransfer(7, snap, Direct), won);
    Marks(TrialEscalated, 3, TrialEscalated, AFTER);
    FirstMoves(s1, EsTransfer(7, snap, Direct), s2.db);
    assert s2 == s1.(db := s2.db, workers := s1.workers[0 := EsTransfer(7, snap, Direct)]);
    var s3 := Racing(TrialEscalated, 4, AFTER, won, won);
    FirstMoves(s2, won, s3.db);
    assert s3 == s2.(db := s3.db, workers := s2.workers[0 := won]);
  }

  // --- losing the handover -------------------------------------------------------------

  // The saga wrote the order's row once, after the first call read it.
  const TOUCHED := Order(1, FieldEngineer, OnSiteDebug, 2)

  function AfterTouch(status: TrialStatus, version: int, first: Worker): Sys {
    Racing(status, version, TOUCHED, first, EsTrial(7, Direct)).(writes := map[1 := 1])
  }

  lemma SagaTouches(s: Sys, touched: Sys)
    requires Reachable(s) && Next(s, SagaWrite(1)) == touched
    ensures Reachable(touched)
  {
    hide Reachable, Next;
    Reach(s, SagaWrite(1));
  }

  // A saga write between reading the order and handing it over can leave an
  // escalated trial's order with the field engineer, the call reporting true.
  lemma HandoverCanBeLost()
    ensures Reachable(AfterTouch(TrialEscalated, 3, Returned(None, true)))
    ensures AfterTouch(TrialEscalated, 3, Returned(None, true)).db.orders[1].role == FieldEngineer
  {
    hide Reachable, AssertTransition, trialTransitions;
    ReachRacing();
    var snap, a, o := Snapshot(BEFORE, 0, true), TrialAt(TrialActive, 1), TrialAt(TrialOverdue, 2);
    var other := EsTrial(7, Direct);
    var s := Racing(TrialActive, 1, BEFORE, EsTrial(7, Direct), other);
    FirstMoves(s, EsOrder(a, Direct), s.db);
    var s1 := Racing(TrialActive, 1, BEFORE, EsOrder(a, Direct), other);
    assert s1 == s.(workers := s.workers[0 := EsOrder(a, Direct)]);
    FirstMoves(s1, EsMarkOverdue(a, snap, Direct), s1.db);
    var s2 := Racing(TrialActive, 1, BEFORE, EsMarkOverdue(a, snap, Direct), other);
    assert s2 == s1.(workers := s1.workers[0 := EsMarkOverdue(a, snap, Direct)]);
    TouchedNext(EsMarkOverdue(a, snap, Direct));
    SagaTouches(s2, AfterTouch(TrialActive, 1, EsMarkOverdue(a, snap, Direct)));
    LosesHandover(snap, a, o);
  }

  lemma TouchedNext(first: Worker)
    ensures Next(Racing(TrialActive, 1, BEFORE, first, EsTrial(7, Direct)), SagaWrite(1)) == AfterTouch(TrialActive, 1, first)
  {
    assert map[1 := BEFORE][1 := TOUCHED] == map[1 := TOUCHED];
    assert map[][1 := 1] == map[1 := 1];
  }

  lemma LosesHandover(snap: Snapshot, a: Trial, o: Trial)
    requires snap == Snapshot(BEFORE, 0, true) && a == TrialAt(TrialActive, 1) && o == TrialAt(TrialOverdue, 2)
    requires Reachable(AfterTouch(TrialActive, 1, EsMarkOverdue(a, snap, Direct)))
    ensures Reachable(AfterTouch(TrialEscalated, 3, Returned(None, true)))
  {
    hide Reachable, AssertTransition, trialTransitions;
    var s := AfterTouch(TrialActive, 1, EsMarkOverdue(a, snap, Direct));
    var s1 := AfterTouch(TrialOverdue, 2, EsReload(7, snap, Direct));
    Marks(TrialActive, 1, TrialOverdue, TOUCHED);
    FirstMoves(s, EsReload(7, snap, Direct), s1.db);
    assert s1 == s.(db := s1.db, workers := s.workers[0 := EsReload(7, snap, Direct)]);
    var s2 := AfterTouch(TrialOverdue, 2, EsMark(o, snap, Direct));
    EscalatableFrom(TrialOverdue);
    FirstMoves(s1, EsMark(o, snap, Direct), s2.db);
    assert s2 == s1.(workers := s1.workers[0 := EsMark(o, snap, Direct)]);
    var s3 := AfterTouch(TrialEscalated, 3, EsTransfer(7, snap, Direct));
    Marks(TrialOverdue, 2, TrialEscalated, TOUCHED);
    FirstMoves(s2, EsTransfer(7, snap, Direct), s3.db);
    assert s3 == s2.(db := s3.db, workers := s2.workers[0 := EsTransfer(7, snap, Direct)]);
    var s4 := AfterTouch(TrialEscalated, 3, Returned(None, true));
    FirstMoves(s3, Returned(None, true), s4.db);
    assert s4 == s3.(workers := s3.workers[0 := Returned(None, true)]);
  }
}
