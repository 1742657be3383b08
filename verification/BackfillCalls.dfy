// Backfill from call to return, with nobody else moving.
module BackfillCalls {
  import opened Common
  import opened Status
  import opened SyncDb
  import opened SyncInv
  import opened SyncTx
  import opened Replay
  import opened ReplayCommits
  import opened SyncMachine
  import opened SyncAlone
  import opened BackfillSafety
  import ReplayOrder
  import TimeText

  // --- what a submission brings, told from its sorted inputs ---------------------

  // Input k is the first with its sequence number, and the order has none stored.
  predicate Brings(db: Db, orderId: Id, sorted: seq<Input>, k: nat)
    requires k < |sorted|
  {
    (orderId, sorted[k].seqNo) !in db.bySeq && forall j | 0 <= j < k :: sorted[j].seqNo != sorted[k].seqNo
  }

  // Why a new input cannot be stored: its uuid is a record's already, or its
  // device or responsible person is unknown.
  predicate UuidTaken(db: Db, orderId: Id, sorted: seq<Input>, ids: seq<Id>, k: nat)
    requires k < |sorted| == |ids|
  {
    ids[k] in db.records || exists j :: 0 <= j < k && Brings(db, orderId, sorted, j) && ids[j] == ids[k]
  }

  predicate Unknown(db: Db, x: Input) {
    || x.deviceId.None? || x.deviceId.value !in db.devices
    || x.responsibleId.None? || x.responsibleId.value !in db.persons
  }

  predicate CannotStore(db: Db, orderId: Id, sorted: seq<Input>, ids: seq<Id>, k: nat)
    requires k < |sorted| == |ids|
  {
    Brings(db, orderId, sorted, k) && (UuidTaken(db, orderId, sorted, ids, k) || Unknown(db, sorted[k]))
  }

  // The new inputs before k.
  function NewBefore(db: Db, orderId: Id, sorted: seq<Input>, k: nat): set<nat>
    requires k <= |sorted|
  {
    set j: nat | j < k && Brings(db, orderId, sorted, j)
  }

  // The new inputs are stored, numbered from the counter in their order, under a
  // batch that counts every input; the order's cursor is at the newest of them.
  ghost predicate SubmissionStored(
    db: Db, now: int, orderId: Id, sorted: seq<Input>, batchId: Id, ids: seq<Id>, db': Db)
    requires |ids| == |sorted|
  {
    && db' == db.(records := db'.records, bySeq := db'.bySeq, nextVersion := db'.nextVersion,
                  batches := db.batches[batchId := Batch(batchId, orderId, None, None, BatchPending, |sorted|, 0, 0, None, 1)],
                  cursors := db.cursors[orderId := db'.nextVersion - 1])
    && db'.nextVersion == db.nextVersion + |NewBefore(db, orderId, sorted, |sorted|)|
    && (forall id | id in db.records :: id in db'.records && db'.records[id] == db.records[id])
    && (forall key | key in db.bySeq :: key in db'.bySeq && db'.bySeq[key] == db.bySeq[key])
    && (forall k | 0 <= k < |sorted| && Brings(db, orderId, sorted, k) ::
          InputStored(db, now, orderId, sorted, batchId, ids, k, db'))
    && (forall id | id in db'.records && id !in db.records ::
          exists k :: 0 <= k < |sorted| && ids[k] == id && Brings(db, orderId, sorted, k))
  }

  ghost predicate InputStored(
    db: Db, now: int, orderId: Id, sorted: seq<Input>, batchId: Id, ids: seq<Id>, k: nat, db': Db)
    requires k < |sorted| == |ids|
  {
    && ids[k] !in db.records && ids[k] in db'.records
    && TakenFrom(db'.records[ids[k]], sorted[k], ids[k], orderId, batchId, now)
    && db'.records[ids[k]].changeVersion == db.nextVersion + |NewBefore(db, orderId, sorted, k)|
    && (orderId, sorted[k].seqNo) in db'.bySeq && db'.bySeq[(orderId, sorted[k].seqNo)] == ids[k]
  }

  predicate Malformed(x: Input) {
    x.deviceId.None? || x.responsibleId.None? || x.seqNo <= 0 || x.occurredAt == TimeText.ZERO_TIME
  }

  ghost predicate StopsFor(db: Db, orderId: Id, sorted: seq<Input>, ids: seq<Id>, failure: Option<Error>)
    requires |ids| == |sorted|
  {
    exists k ::
      && 0 <= k < |sorted| && CannotStore(db, orderId, sorted, ids, k)
      && (forall j | 0 <= j < k :: !CannotStore(db, orderId, sorted, ids, j))
      && failure == Some(if UuidTaken(db, orderId, sorted, ids, k) then AlreadyExists else Driver)
  }

  ghost predicate BackfillReturns(
    db: Db, now: int, orderId: Id, inputs: seq<Input>, batchId: Id, ids: seq<Id>, db': Db, failure: Option<Error>)
    requires |ids| == |ReplayOrder.SortStable(inputs)|
  {
    var sorted := ReplayOrder.SortStable(inputs);
    if inputs == [] then failure == Some(Validation) && db' == db
    else if orderId !in db.orders then failure == Some(NotFound) && db' == db
    else if db.orders[orderId].aborted then failure == Some(IllegalTransition) && db' == db
    else if exists x | x in inputs :: Malformed(x) then failure == Some(Validation) && db' == db
    else if forall x | x in inputs :: (orderId, x.seqNo) in db.bySeq then failure == None && db' == db
    else if batchId in db.batches then failure == Some(AlreadyExists) && db' == db
    else if exists k :: 0 <= k < |sorted| && CannotStore(db, orderId, sorted, ids, k) then
      StopsFor(db, orderId, sorted, ids, failure) && db' == db
    else failure == None && SubmissionStored(db, now, orderId, sorted, batchId, ids, db')
  }

  // --- rows and inputs say the same ------------------------------------------------

  lemma RowBrings(db: Db, orderId: Id, batchId: Id, sorted: seq<Input>, ids: seq<Id>, now: int, k: nat)
    requires |ids| == |sorted| && (forall i | 0 <= i < |sorted| :: ValidInput(sorted[i])) && k < |sorted|
    ensures var rows := Rows(orderId, batchId, sorted, ids, now);
            && rows[k].Key() == (orderId, sorted[k].seqNo) && rows[k].id == ids[k] && rows[k].orderId == orderId
            && rows[k].deviceId == sorted[k].deviceId.value && rows[k].responsibleId == sorted[k].responsibleId.value
            && (FirstNew(db, rows, k) <==> Brings(db, orderId, sorted, k))
  {
    RowFacts(orderId, batchId, sorted, ids, now);
  }

  lemma RowCannotStore(db: Db, orderId: Id, batchId: Id, sorted: seq<Input>, ids: seq<Id>, now: int, k: nat)
    requires |ids| == |sorted| && (forall i | 0 <= i < |sorted| :: ValidInput(sorted[i])) && k < |sorted|
    requires orderId in db.orders
    ensures var rows := Rows(orderId, batchId, sorted, ids, now);
            && (IdUsed(db, rows, k) <==> UuidTaken(db, orderId, sorted, ids, k))
            && (RowRefused(db, rows, k) <==> CannotStore(db, orderId, sorted, ids, k))
  {
    hide FirstNew, Brings;
    var rows := Rows(orderId, batchId, sorted, ids, now);
    forall j | 0 <= j <= k
      ensures FirstNew(db, rows, j) <==> Brings(db, orderId, sorted, j)
      ensures rows[j].id == ids[j]
    {
      RowBrings(db, orderId, batchId, sorted, ids, now, j);
    }
    RowBrings(db, orderId, batchId, sorted, ids, now, k);
    assert ValidInput(sorted[k]);
  }

  lemma {:induction false} CountsNewBefore(
    db: Db, orderId: Id, batchId: Id, sorted: seq<Input>, ids: seq<Id>, now: int, k: nat)
    requires |ids| == |sorted| && (forall i | 0 <= i < |sorted| :: ValidInput(sorted[i])) && k <= |sorted|
    ensures CountNew(db, Rows(orderId, batchId, sorted, ids, now)[..k]) == |NewBefore(db, orderId, sorted, k)|
  {
    hide FirstNew, Brings;
    var rows := Rows(orderId, batchId, sorted, ids, now);
    if k == 0 {
      assert NewBefore(db, orderId, sorted, 0) == {};
    } else {
      CountsNewBefore(db, orderId, batchId, sorted, ids, now, k - 1);
      RowBrings(db, orderId, batchId, sorted, ids, now, k - 1);
      assert rows[..k] == rows[..k - 1] + [rows[k - 1]];
      CountLast(db, rows[..k - 1], rows[k - 1]);
      FirstInPrefix(db, rows, k);
      assert NewBefore(db, orderId, sorted, k)
          == NewBefore(db, orderId, sorted, k - 1) + if Brings(db, orderId, sorted, k - 1) then {k - 1} else {};
    }
  }

  lemma FirstInPrefix(db: Db, rows: seq<Record>, k: nat)
    requires 0 < k <= |rows|
    ensures FirstNew(db, rows[..k], k - 1) <==> FirstNew(db, rows, k - 1)
  {
  }

  lemma SameInputs(inputs: seq<Input>, x: Input)
    ensures x in ReplayOrder.SortStable(inputs) <==> x in inputs
  {
    ReplayOrder.SortStableIsStable(inputs);
    assert x in multiset(ReplayOrder.SortStable(inputs)) <==> x in multiset(inputs);
  }

  lemma SomeMalformed(inputs: seq<Input>)
    ensures var sorted := ReplayOrder.SortStable(inputs);
            (exists i :: 0 <= i < |sorted| && !ValidInput(sorted[i])) <==> (exists x | x in inputs :: Malformed(x))
  {
    hide ReplayOrder.SortStable;
    var sorted := ReplayOrder.SortStable(inputs);
    if forall i | 0 <= i < |sorted| :: ValidInput(sorted[i]) {
      forall x | x in inputs
        ensures !Malformed(x)
      {
        SameInputs(inputs, x);
        var i :| 0 <= i < |sorted| && sorted[i] == x;
        assert ValidInput(sorted[i]);
      }
    } else {
      var i :| 0 <= i < |sorted| && !ValidInput(sorted[i]);
      SameInputs(inputs, sorted[i]);
      assert Malformed(sorted[i]);
    }
  }

  lemma EveryNumberStored(db: Db, orderId: Id, inputs: seq<Input>, batchId: Id, ids: seq<Id>, now: int)
    requires var sorted := ReplayOrder.SortStable(inputs);
             |ids| == |sorted| && forall i | 0 <= i < |sorted| :: ValidInput(sorted[i])
    ensures AllKnown(db, Rows(orderId, batchId, ReplayOrder.SortStable(inputs), ids, now))
            <==> forall x | x in inputs :: (orderId, x.seqNo) in db.bySeq
  {
    hide ReplayOrder.SortStable;
    var sorted := ReplayOrder.SortStable(inputs);
    var rows := Rows(orderId, batchId, sorted, ids, now);
    forall x
      ensures x in sorted <==> x in inputs
    {
      SameInputs(inputs, x);
    }
    forall k | 0 <= k < |sorted|
      ensures rows[k].Key() == (orderId, sorted[k].seqNo)
    {
      RowBrings(db, orderId, batchId, sorted, ids, now, k);
    }
    if AllKnown(db, rows) {
      forall x | x in inputs
        ensures (orderId, x.seqNo) in db.bySeq
      {
        var k :| 0 <= k < |sorted| && sorted[k] == x;
        assert rows[k] in rows;
      }
    }
    if forall x | x in inputs :: (orderId, x.seqNo) in db.bySeq {
      forall r | r in rows
        ensures r.Key() in db.bySeq
      {
        var k :| 0 <= k < |rows| && rows[k] == r;
        assert sorted[k] in inputs;
      }
    }
  }

  // --- the transaction ------------------------------------------------------------------

  lemma RowIsStored(
    db: Db, now: int, orderId: Id, batchId: Id, sorted: seq<Input>, ids: seq<Id>, k: nat, db': Db)
    requires |ids| == |sorted| && (forall i | 0 <= i < |sorted| :: ValidInput(sorted[i])) && k < |sorted|
    requires Replayed(db, orderId, batchId, Rows(orderId, batchId, sorted, ids, now), db')
    requires Brings(db, orderId, sorted, k)
    ensures InputStored(db, now, orderId, sorted, batchId, ids, k, db')
  {
    hide Replayed, FirstNew, Brings, TakenFrom, NewBefore;
    var rows := Rows(orderId, batchId, sorted, ids, now);
    RowBrings(db, orderId, batchId, sorted, ids, now, k);
    NewRowStored(db, orderId, batchId, rows, db', k);
    NewRowIsNew(db, orderId, batchId, rows, db', k);
    NumberedIsTaken(db, orderId, batchId, sorted, ids, now, k);
    CountsNewBefore(db, orderId, batchId, sorted, ids, now, k);
  }

  lemma NewRowIsNew(db: Db, orderId: Id, batchId: Id, rows: seq<Record>, db': Db, k: nat)
    requires Replayed(db, orderId, batchId, rows, db') && k < |rows| && FirstNew(db, rows, k)
    ensures rows[k].id !in db.records
  {
    hide SeqOk, NewIds, OnlyRows, CountNew;
    var before := db.(batches := db'.batches);
    assert FirstNew(before, rows, k);
    assert RowStored(before, rows, k, db'.(cursors := db.cursors));
  }

  lemma ReplayedKeepsOld(db: Db, orderId: Id, batchId: Id, rows: seq<Record>, db': Db)
    requires Replayed(db, orderId, batchId, rows, db')
    ensures forall id | id in db.records :: id in db'.records && db'.records[id] == db.records[id]
    ensures forall key | key in db.bySeq :: key in db'.bySeq && db'.bySeq[key] == db.bySeq[key]
    ensures db'.nextVersion == db.nextVersion + CountNew(db, rows)
    ensures db' == db.(records := db'.records, bySeq := db'.bySeq, nextVersion := db'.nextVersion,
                       batches := db.batches[batchId := Batch(batchId, orderId, None, None, BatchPending, |rows|, 0, 0, None, 1)],
                       cursors := db.cursors[orderId := db'.nextVersion - 1])
  {
    hide Filled, CountNew, FirstNew, NewIds;
    var before := db.(batches := db'.batches);
    CountSame(db, before, rows);
    FilledKeys(before, rows, db'.(cursors := db.cursors));
  }

  lemma ReplayedIsStored(
    db: Db, now: int, orderId: Id, batchId: Id, sorted: seq<Input>, ids: seq<Id>, db': Db)
    requires |ids| == |sorted| && (forall i | 0 <= i < |sorted| :: ValidInput(sorted[i]))
    requires Replayed(db, orderId, batchId, Rows(orderId, batchId, sorted, ids, now), db')
    ensures SubmissionStored(db, now, orderId, sorted, batchId, ids, db')
  {
    hide Replayed, FirstNew, Brings, InputStored, NewBefore, CountNew;
    var rows := Rows(orderId, batchId, sorted, ids, now);
    RowFacts(orderId, batchId, sorted, ids, now);
    ReplayedKeepsOld(db, orderId, batchId, rows, db');
    CountsNewBefore(db, orderId, batchId, sorted, ids, now, |sorted|);
    assert rows[..|sorted|] == rows;
    forall k | 0 <= k < |sorted| && Brings(db, orderId, sorted, k)
      ensures InputStored(db, now, orderId, sorted, batchId, ids, k, db')
    {
      RowIsStored(db, now, orderId, batchId, sorted, ids, k, db');
    }
    forall id | id in db'.records && id !in db.records
      ensures exists k :: 0 <= k < |sorted| && ids[k] == id && Brings(db, orderId, sorted, k)
    {
      var k := NewRowShape(db, orderId, batchId, rows, db', id);
      RowBrings(db, orderId, batchId, sorted, ids, now, k);
    }
  }

  // The transaction on unknown rows commits unless the batch id is taken or a new
  // row cannot be stored.
  lemma BackfillCommits(db: Db, orderId: Id, batchId: Id, rows: seq<Record>)
    requires DbInv(db) && !AllKnown(db, rows) && orderId in db.orders
    ensures batchId in db.batches ==> Backfill(db, orderId, batchId, rows) == Err(AlreadyExists)
    ensures batchId !in db.batches ==> (Backfill(db, orderId, batchId, rows).Ok? <==> !Refused(db, rows))
    ensures batchId !in db.batches && Refused(db, rows) ==>
              exists i :: 0 <= i < |rows| && StopsAt(db, rows, i, Backfill(db, orderId, batchId, rows).error)
  {
    hide DbInv, SeqOk, AllKnown, InsertAll, MaxChange, StopsAt, Refused;
    if batchId !in db.batches {
      var withBatch := db.(batches := db.batches[batchId := OpenBatch(batchId, orderId, |rows|)]);
      assert db.CreateSyncBatch(Batch(batchId, orderId, None, None, BatchPending, |rows|, 0, 0, None, 1)) == Ok(withBatch);
      InvGivesSeq(db);
      SeqIgnoresBatches(db, withBatch.batches);
      InsertsExactly(withBatch, rows);
      RefusedIgnoresBatches(db, withBatch, rows);
      if InsertAll(withBatch, rows).Ok? {
        InsertAllFills(withBatch, rows);
        FilledKeys(withBatch, rows, InsertAll(withBatch, rows).value);
      } else {
        var i :| 0 <= i < |rows| && StopsAt(withBatch, rows, i, InsertAll(withBatch, rows).error);
        StopsIgnoresBatches(db, withBatch, rows, i, InsertAll(withBatch, rows).error);
      }
    }
  }

  lemma RefusedIgnoresBatches(db: Db, db1: Db, rows: seq<Record>)
    requires db1 == db.(batches := db1.batches)
    ensures Refused(db1, rows) == Refused(db, rows)
  {
    hide RowRefused;
    forall i | 0 <= i < |rows|
      ensures RowRefused(db1, rows, i) == RowRefused(db, rows, i)
    {
      RowIgnoresBatches(db, db1, rows, i);
    }
  }

  lemma RowIgnoresBatches(db: Db, db1: Db, rows: seq<Record>, i: nat)
    requires db1 == db.(batches := db1.batches) && i < |rows|
    ensures RowRefused(db1, rows, i) == RowRefused(db, rows, i) && IdUsed(db1, rows, i) == IdUsed(db, rows, i)
  {
    forall j | 0 <= j <= i
      ensures FirstNew(db1, rows, j) == FirstNew(db, rows, j)
    {
    }
  }

  lemma StopsIgnoresBatches(db: Db, db1: Db, rows: seq<Record>, i: nat, error: Error)
    requires db1 == db.(batches := db1.batches) && i < |rows| && StopsAt(db1, rows, i, error)
    ensures StopsAt(db, rows, i, error)
  {
    hide RowRefused, IdUsed;
    forall j | 0 <= j <= i
      ensures RowRefused(db1, rows, j) == RowRefused(db, rows, j) && IdUsed(db1, rows, j) == IdUsed(db, rows, j)
    {
      RowIgnoresBatches(db, db1, rows, j);
    }
  }

  // --- from call to return -----------------------------------------------------------------

  lemma RefusalInInputs(
    db: Db, now: int, orderId: Id, batchId: Id, sorted: seq<Input>, ids: seq<Id>)
    requires |ids| == |sorted| && (forall i | 0 <= i < |sorted| :: ValidInput(sorted[i])) && orderId in db.orders
    ensures Refused(db, Rows(orderId, batchId, sorted, ids, now))
            <==> exists k :: 0 <= k < |sorted| && CannotStore(db, orderId, sorted, ids, k)
  {
    hide RowRefused, CannotStore;
    var rows := Rows(orderId, batchId, sorted, ids, now);
    forall k | 0 <= k < |sorted|
      ensures RowRefused(db, rows, k) <==> CannotStore(db, orderId, sorted, ids, k)
    {
      RowCannotStore(db, orderId, batchId, sorted, ids, now, k);
    }
  }

  lemma StopInInputs(
    db: Db, now: int, orderId: Id, batchId: Id, sorted: seq<Input>, ids: seq<Id>, i: nat, error: Error)
    requires |ids| == |sorted| && (forall k | 0 <= k < |sorted| :: ValidInput(sorted[k])) && orderId in db.orders
    requires i < |sorted| && StopsAt(db, Rows(orderId, batchId, sorted, ids, now), i, error)
    ensures StopsFor(db, orderId, sorted, ids, Some(error))
  {
    hide RowRefused, CannotStore, IdUsed, UuidTaken;
    var rows := Rows(orderId, batchId, sorted, ids, now);
    forall k | 0 <= k < |sorted|
      ensures RowRefused(db, rows, k) <==> CannotStore(db, orderId, sorted, ids, k)
      ensures IdUsed(db, rows, k) <==> UuidTaken(db, orderId, sorted, ids, k)
    {
      RowCannotStore(db, orderId, batchId, sorted, ids, now, k);
    }
  }

  lemma SubmissionReturns(
    db: Db, now: int, orderId: Id, inputs: seq<Input>, batchId: Id, ids: seq<Id>, os: seq<Oracle>,
    db': Db, failure: Option<Error>)
    requires DbInv(db) && os != [] && orderId in db.orders && !db.orders[orderId].aborted && inputs != []
    requires |ids| == |ReplayOrder.SortStable(inputs)|
    requires forall i | 0 <= i < |ReplayOrder.SortStable(inputs)| :: ValidInput(ReplayOrder.SortStable(inputs)[i])
    requires var rows := Rows(orderId, batchId, ReplayOrder.SortStable(inputs), ids, now);
             Alone(db, now, BfReplay(orderId, batchId, rows), os) == (db', Done(failure))
    ensures BackfillReturns(db, now, orderId, inputs, batchId, ids, db', failure)
  {
    hide DbInv, Alone, ReplayOrder.SortStable, AllKnown, Refused, StopsAt, StopsFor, CannotStore, SubmissionStored,
      Replayed, Malformed, Backfill;
    var sorted := ReplayOrder.SortStable(inputs);
    var rows := Rows(orderId, batchId, sorted, ids, now);
    var replayed := Backfill(db, orderId, batchId, rows);
    Return(db, now, BfReplay(orderId, batchId, rows), os, InTx(db, replayed),
           if replayed.Ok? then None else Some(replayed.error));
    SomeMalformed(inputs);
    EveryNumberStored(db, orderId, inputs, batchId, ids, now);
    if AllKnown(db, rows) {
      KnownChangesNothing(db, orderId, batchId, rows);
    } else {
      BackfillCommits(db, orderId, batchId, rows);
      RefusalInInputs(db, now, orderId, batchId, sorted, ids);
      if replayed.Ok? {
        BackfillReplays(db, orderId, batchId, rows);
        ReplayedIsStored(db, now, orderId, batchId, sorted, ids, replayed.value);
      } else if batchId !in db.batches {
        var i :| 0 <= i < |rows| && StopsAt(db, rows, i, replayed.error);
        StopInInputs(db, now, orderId, batchId, sorted, ids, i, replayed.error);
      }
    }
  }

  lemma {:induction false} BackfillCallReturns(
    db: Db, now: int, orderId: Id, inputs: seq<Input>, batchId: Id, ids: seq<Id>, os: seq<Oracle>,
    db': Db, failure: Option<Error>)
    requires DbInv(db) && |os| == 2 && |ids| == |ReplayOrder.SortStable(inputs)|
    requires Alone(db, now, BfStart(orderId, inputs, batchId, ids), os) == (db', Done(failure))
    ensures BackfillReturns(db, now, orderId, inputs, batchId, ids, db', failure)
  {
    hide DbInv, Alone, ReplayOrder.SortStable, StopsFor, CannotStore, SubmissionStored, Malformed, ValidInput;
    var w0, sorted := BfStart(orderId, inputs, batchId, ids), ReplayOrder.SortStable(inputs);
    if inputs == [] || orderId !in db.orders || db.orders[orderId].aborted {
      Return(db, now, w0, os, db, StepWorker(db, now, w0, os[0]).1.failure);
    } else if exists i :: 0 <= i < |sorted| && !ValidInput(sorted[i]) {
      SomeMalformed(inputs);
      Return(db, now, w0, os, db, Some(Validation));
    } else {
      TakeStep(db, now, w0, os, db, BfReplay(orderId, batchId, Rows(orderId, batchId, sorted, ids, now)));
      SubmissionReturns(db, now, orderId, inputs, batchId, ids, os[1..], db', failure);
    }
  }

  // --- what the caller is answered with ------------------------------------------------------

  // r answers input k: the row stored before under its number, or the first input
  // with that number as it has just been stored.
  ghost predicate Answers(
    db: Db, now: int, orderId: Id, sorted: seq<Input>, batchId: Id, ids: seq<Id>, k: nat, db': Db, r: Record)
    requires k < |sorted| == |ids|
  {
    var key := (orderId, sorted[k].seqNo);
    if key in db.bySeq then db.bySeq[key] in db.records && r == db.records[db.bySeq[key]]
    else
      var f := FirstWith(sorted, k);
      ids[f] in db'.records && r == db'.records[ids[f]] && TakenFrom(r, sorted[f], ids[f], orderId, batchId, now)
  }

  lemma FirstBrings(db: Db, orderId: Id, sorted: seq<Input>, k: nat)
    requires k < |sorted| && (orderId, sorted[k].seqNo) !in db.bySeq
    ensures Brings(db, orderId, sorted, FirstWith(sorted, k))
  {
  }

  lemma NewAnswer(
    db: Db, now: int, orderId: Id, sorted: seq<Input>, batchId: Id, ids: seq<Id>, k: nat, db': Db, r: Record)
    requires k < |sorted| == |ids| && (orderId, sorted[k].seqNo) !in db.bySeq
    requires SubmissionStored(db, now, orderId, sorted, batchId, ids, db')
    requires r.orderId == orderId && r.seqNo == sorted[k].seqNo
    ensures Answers(db, now, orderId, sorted, batchId, ids, k, db', Stored(db', r))
  {
    hide Brings, NewBefore, TakenFrom, FirstWith;
    FirstBrings(db, orderId, sorted, k);
    assert InputStored(db, now, orderId, sorted, batchId, ids, FirstWith(sorted, k), db');
  }

  lemma OldAnswer(
    db: Db, now: int, orderId: Id, sorted: seq<Input>, batchId: Id, ids: seq<Id>, k: nat, db': Db, r: Record)
    requires DbInv(db) && k < |sorted| == |ids| && (orderId, sorted[k].seqNo) in db.bySeq
    requires db' == db || SubmissionStored(db, now, orderId, sorted, batchId, ids, db')
    requires r.orderId == orderId && r.seqNo == sorted[k].seqNo
    ensures Answers(db, now, orderId, sorted, batchId, ids, k, db', Stored(db', r))
  {
    hide RecordOk, IndexOk, BatchOk, InputStored, Brings, NewBefore;
    assert KeysOk(db);
  }

  // A call that succeeds answers every input, in replay order.
  lemma EveryInputAnswered(
    db: Db, now: int, orderId: Id, inputs: seq<Input>, batchId: Id, ids: seq<Id>, db': Db)
    requires DbInv(db) && |ids| == |ReplayOrder.SortStable(inputs)|
    requires forall i | 0 <= i < |ReplayOrder.SortStable(inputs)| :: ValidInput(ReplayOrder.SortStable(inputs)[i])
    requires BackfillReturns(db, now, orderId, inputs, batchId, ids, db', None)
    ensures var sorted := ReplayOrder.SortStable(inputs);
            var rows := Rows(orderId, batchId, sorted, ids, now);
            forall k | 0 <= k < |sorted| :: Answers(db, now, orderId, sorted, batchId, ids, k, db', Stored(db', rows[k]))
  {
    hide DbInv, SubmissionStored, Answers, Stored, CannotStore, Malformed, ReplayOrder.SortStable, ValidInput;
    var sorted := ReplayOrder.SortStable(inputs);
    var rows := Rows(orderId, batchId, sorted, ids, now);
    forall k | 0 <= k < |sorted|
      ensures Answers(db, now, orderId, sorted, batchId, ids, k, db', Stored(db', rows[k]))
    {
      RowKeys(orderId, batchId, sorted, ids, now, k);
      SameInputs(inputs, sorted[k]);
      assert sorted[k] in inputs;
      if (orderId, sorted[k].seqNo) in db.bySeq {
        OldAnswer(db, now, orderId, sorted, batchId, ids, k, db', rows[k]);
      } else {
        NewAnswer(db, now, orderId, sorted, batchId, ids, k, db', rows[k]);
      }
    }
  }

  lemma RowKeys(orderId: Id, batchId: Id, sorted: seq<Input>, ids: seq<Id>, now: int, k: nat)
    requires |ids| == |sorted| && (forall i | 0 <= i < |sorted| :: ValidInput(sorted[i])) && k < |sorted|
    ensures var r := Rows(orderId, batchId, sorted, ids, now)[k]; r.orderId == orderId && r.seqNo == sorted[k].seqNo
  {
  }
}
