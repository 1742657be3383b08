// A call of the sync machine run through its steps with nobody else moving.
module SyncAlone {
  import opened Common
  import opened SyncDb
  import opened SyncMachine

  function Alone(db: Db, now: int, w: Worker, os: seq<Oracle>): (Db, Worker)
    decreases |os|
  {
    if os == [] then (db, w)
    else
      var (db', w') := StepWorker(db, now, w, os[0]);
      Alone(db', ClockAfter(now, w, os[0]), w', os[1..])
  }

  lemma {:induction false} ReturnedStays(db: Db, now: int, failure: Option<Error>, os: seq<Oracle>)
    ensures Alone(db, now, Done(failure), os) == (db, Done(failure))
  {
    if os != [] {
      ReturnedStays(db, now, failure, os[1..]);
    }
  }

  // The call's next step, taken: what remains is the rest of its program.
  lemma TakeStep(db: Db, now: int, w: Worker, os: seq<Oracle>, db': Db, w': Worker)
    requires os != [] && StepWorker(db, now, w, os[0]) == (db', w')
    ensures Alone(db, now, w, os) == Alone(db', ClockAfter(now, w, os[0]), w', os[1..])
  {
  }

  lemma Return(db: Db, now: int, w: Worker, os: seq<Oracle>, db': Db, failure: Option<Error>)
    requires os != [] && StepWorker(db, now, w, os[0]) == (db', Done(failure))
    ensures Alone(db, now, w, os) == (db', Done(failure))
  {
    ReturnedStays(db', ClockAfter(now, w, os[0]), failure, os[1..]);
  }

  function Steps(w: nat, os: seq<Oracle>): (moves: seq<Move>) {
    seq(|os|, i requires 0 <= i < |os| => StepOf(w, os[i]))
  }

  lemma {:induction false} RunFromFront(s: Sys, m: Move, rest: seq<Move>)
    ensures Run(s, [m] + rest) == Run(Next(s, m), rest)
  {
    hide Next;
    if rest == [] {
      assert Run(s, [m]) == Next(Run(s, []), m);
    } else {
      assert ([m] + rest)[..|rest|] == [m] + rest[..|rest| - 1];
      RunFromFront(s, m, rest[..|rest| - 1]);
    }
  }

  lemma {:induction false} RunConcat(s: Sys, a: seq<Move>, b: seq<Move>)
    ensures Run(s, a + b) == Run(Run(s, a), b)
  {
    hide Next;
    if b == [] {
      assert a + b == a;
    } else {
      assert (a + b)[..|a + b| - 1] == a + b[..|b| - 1];
      RunConcat(s, a, b[..|b| - 1]);
    }
  }

  // A worker stepping alone is a run of the machine.
  lemma {:induction false} AloneIsARun(s: Sys, w: nat, os: seq<Oracle>)
    requires w in s.workers
    ensures w in Run(s, Steps(w, os)).workers
    ensures (Run(s, Steps(w, os)).db, Run(s, Steps(w, os)).workers[w]) == Alone(s.db, s.now, s.workers[w], os)
    decreases |os|
  {
    hide StepWorker, NoteAnswered;
    if os != [] {
      var s' := Next(s, StepOf(w, os[0]));
      AloneIsARun(s', w, os[1..]);
      assert Steps(w, os) == [StepOf(w, os[0])] + Steps(w, os[1..]);
      RunFromFront(s, StepOf(w, os[0]), Steps(w, os[1..]));
    }
  }

  // So a call made at any reachable point leads to a reachable point.
  lemma CallsStayReachable(moves: seq<Move>, w: nat, call: Worker, os: seq<Oracle>)
    requires w !in Run(Init(), moves).workers && call.IsStart()
    ensures var s := Run(Init(), moves);
            Run(Init(), moves + ([Spawn(w, call)] + Steps(w, os))).db == Alone(s.db, s.now, call, os).0
  {
    hide StepWorker, NoteAnswered, Alone;
    var s := Run(Init(), moves);
    RunConcat(Init(), moves, [Spawn(w, call)] + Steps(w, os));
    RunFromFront(s, Spawn(w, call), Steps(w, os));
    AloneIsARun(Next(s, Spawn(w, call)), w, os);
  }
}
