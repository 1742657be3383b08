// A call of the trial machine run through its steps with nobody else moving.
module TrialAlone {
  import opened Common
  import opened TrialDb
  import opened TrialMachine

  function Alone(db: Db, now: int, writes: map<Id, nat>, w: Worker, os: seq<seq<Id>>): (Db, Worker) {
    if os == [] then (db, w)
    else
      var (db', w') := Alone(db, now, writes, w, os[..|os| - 1]);
      StepWorker(db', now, writes, w', os[|os| - 1])
  }

  lemma Begin(db: Db, now: int, writes: map<Id, nat>, w: Worker)
    ensures Alone(db, now, writes, w, []) == (db, w)
  {
  }

  // One more step of the call: the trace grows by it.
  lemma Take(db: Db, now: int, writes: map<Id, nat>, w: Worker, os: seq<seq<Id>>, o: seq<Id>,
             db1: Db, w1: Worker, db2: Db, w2: Worker)
    requires Alone(db, now, writes, w, os) == (db1, w1) && StepWorker(db1, now, writes, w1, o) == (db2, w2)
    ensures Alone(db, now, writes, w, os + [o]) == (db2, w2)
  {
    assert (os + [o])[..|os|] == os;
  }

  lemma {:induction false} AloneConcat(db: Db, now: int, writes: map<Id, nat>, w: Worker, a: seq<seq<Id>>, b: seq<seq<Id>>)
    ensures var (db1, w1) := Alone(db, now, writes, w, a);
            Alone(db, now, writes, w, a + b) == Alone(db1, now, writes, w1, b)
  {
    hide StepWorker;
    if b == [] {
      assert a + b == a;
    } else {
      assert (a + b)[..|a + b| - 1] == a + b[..|b| - 1];
      AloneConcat(db, now, writes, w, a, b[..|b| - 1]);
    }
  }

  function Steps(w: nat, os: seq<seq<Id>>): (moves: seq<Move>) {
    seq(|os|, i requires 0 <= i < |os| => StepOf(w, os[i]))
  }

  // A worker stepping alone is a run of the machine, so what holds of every
  // interleaving holds of these calls.
  lemma {:induction false} AloneIsARun(s: Sys, w: nat, os: seq<seq<Id>>)
    requires w in s.workers
    ensures var s' := Run(s, Steps(w, os));
            && w in s'.workers && s'.now == s.now && s'.writes == s.writes
            && (s'.db, s'.workers[w]) == Alone(s.db, s.now, s.writes, s.workers[w], os)
  {
    hide StepWorker;
    if os != [] {
      AloneIsARun(s, w, os[..|os| - 1]);
      assert Steps(w, os)[..|os| - 1] == Steps(w, os[..|os| - 1]);
    }
  }
}
