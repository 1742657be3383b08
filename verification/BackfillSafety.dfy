// What replaying a submission stores, at any reachable point.
module BackfillSafety {
  import opened Common
  import opened Status
  import opened SyncDb
  import opened SyncInv
  import opened SyncTx
  import opened Replay
  import opened SyncMachine
  import ReplayOrder

  // (order, client_sequence) names one stored row in every run.
  lemma StoredOnce(moves: seq<Move>, a: Id, b: Id)
    requires var db := Run(Init(), moves).db;
             && a in db.records && b in db.records
             && db.records[a].orderId == db.records[b].orderId && db.records[a].seqNo == db.records[b].seqNo
    ensures a == b
  {
    hide Run;
    RunKeeps(moves);
    var db := Run(Init(), moves).db;
    assert RecordOk(db, a) && RecordOk(db, b);
  }

  // The first input, in replay order, with input k's sequence number.
  function FirstWith(inputs: seq<Input>, k: nat): (f: nat)
    requires k < |inputs|
    ensures f <= k && inputs[f].seqNo == inputs[k].seqNo
    ensures forall j | 0 <= j < f :: inputs[j].seqNo != inputs[k].seqNo
  {
    if k > 0 && exists j | 0 <= j < k :: inputs[j].seqNo == inputs[k].seqNo then
      FirstAmong(inputs, inputs[k].seqNo, 0, k)
    else
      k
  }

  function FirstAmong(inputs: seq<Input>, seqNo: int, i: nat, k: nat): (f: nat)
    requires i <= k < |inputs| && inputs[k].seqNo == seqNo
    requires forall j | 0 <= j < i :: inputs[j].seqNo != seqNo
    ensures f <= k && inputs[f].seqNo == seqNo && forall j | 0 <= j < f :: inputs[j].seqNo != seqNo
    decreases k - i
  {
    if inputs[i].seqNo == seqNo then i else FirstAmong(inputs, seqNo, i + 1, k)
  }

  lemma RowFacts(orderId: Id, batchId: Id, inputs: seq<Input>, ids: seq<Id>, now: int)
    requires |ids| == |inputs| && forall i | 0 <= i < |inputs| :: ValidInput(inputs[i])
    ensures var rows := Rows(orderId, batchId, inputs, ids, now);
            |rows| == |inputs| && ForBatch(rows, orderId, batchId)
            && forall i | 0 <= i < |rows| :: rows[i] == NewRecord(ids[i], orderId, batchId, inputs[i], now)
  {
  }

  lemma FirstWithIsFirstNew(db: Db, orderId: Id, batchId: Id, inputs: seq<Input>, ids: seq<Id>, now: int, k: nat)
    requires |ids| == |inputs| && (forall i | 0 <= i < |inputs| :: ValidInput(inputs[i])) && k < |inputs|
    requires (orderId, inputs[k].seqNo) !in db.bySeq
    ensures FirstNew(db, Rows(orderId, batchId, inputs, ids, now), FirstWith(inputs, k))
  {
    RowFacts(orderId, batchId, inputs, ids, now);
  }

  // r is input x as a replay at now stores it under a batch: taken over field by
  // field, pending, unlinked, at version one.
  predicate TakenFrom(r: Record, x: Input, id: Id, orderId: Id, batchId: Id, now: int) {
    && r.id == id && r.orderId == orderId && r.batchId == batchId
    && x.deviceId == Some(r.deviceId) && x.responsibleId == Some(r.responsibleId)
    && r.occurredAt == x.occurredAt && r.receivedAt == now
    && r.seqNo == x.seqNo && r.hours == x.hours && r.content == x.content
    && r.status == Pending && r.conflictId == None && r.manualId == None && r.version == 1
  }

  lemma NumberedIsTaken(db: Db, orderId: Id, batchId: Id, inputs: seq<Input>, ids: seq<Id>, now: int, k: nat)
    requires |ids| == |inputs| && (forall i | 0 <= i < |inputs| :: ValidInput(inputs[i])) && k < |inputs|
    ensures TakenFrom(
              Numbered(db, Rows(orderId, batchId, inputs, ids, now), k), inputs[k], ids[k], orderId, batchId, now)
  {
    RowFacts(orderId, batchId, inputs, ids, now);
  }

  // A committed replay of sorted inputs: the row answering input k was either
  // stored before and is untouched, or is the first input with that sequence
  // number, stored pending under the new batch with a fresh change version.
  lemma FirstInputWins(moves: seq<Move>, orderId: Id, batchId: Id, inputs: seq<Input>, ids: seq<Id>, now: int, k: nat)
    requires |ids| == |inputs| && (forall i | 0 <= i < |inputs| :: ValidInput(inputs[i])) && k < |inputs|
    requires Backfill(Run(Init(), moves).db, orderId, batchId, Rows(orderId, batchId, inputs, ids, now)).Ok?
    ensures var db := Run(Init(), moves).db;
            var rows := Rows(orderId, batchId, inputs, ids, now);
            var db' := Backfill(db, orderId, batchId, rows).value;
            var key := (orderId, inputs[k].seqNo);
            && key in db'.bySeq && db'.bySeq[key] in db'.records
            && var r := db'.records[db'.bySeq[key]];
               if key in db.bySeq then
                 db'.bySeq[key] == db.bySeq[key] && db.bySeq[key] in db.records && r == db.records[db.bySeq[key]]
               else
                 var f := FirstWith(inputs, k);
                 TakenFrom(r, inputs[f], ids[f], orderId, batchId, now)
                 && db.nextVersion <= r.changeVersion < db'.nextVersion
  {
    hide Run, DbInv, Replayed, AllKnown, FirstNew, FirstWith, TakenFrom, Numbered;
    RunKeeps(moves);
    var db := Run(Init(), moves).db;
    var rows := Rows(orderId, batchId, inputs, ids, now);
    var key := (orderId, inputs[k].seqNo);
    RowFacts(orderId, batchId, inputs, ids, now);
    assert rows[k].Key() == key;
    if AllKnown(db, rows) {
      KnownRow(db, rows, k);
      KnownChangesNothing(db, orderId, batchId, rows);
    } else {
      BackfillReplays(db, orderId, batchId, rows);
      if key in db.bySeq {
        KnownRowStays(db, orderId, batchId, rows, Backfill(db, orderId, batchId, rows).value, key);
      } else {
        FirstWithIsFirstNew(db, orderId, batchId, inputs, ids, now, k);
        NewRowStored(db, orderId, batchId, rows, Backfill(db, orderId, batchId, rows).value, FirstWith(inputs, k));
        NumberedIsTaken(db, orderId, batchId, inputs, ids, now, FirstWith(inputs, k));
      }
    }
  }

  lemma KnownRow(db: Db, rows: seq<Record>, k: nat)
    requires DbInv(db) && AllKnown(db, rows) && k < |rows|
    ensures rows[k].Key() in db.bySeq && db.bySeq[rows[k].Key()] in db.records
  {
  }

  lemma KnownRowStays(db: Db, orderId: Id, batchId: Id, rows: seq<Record>, db': Db, key: (Id, int))
    requires DbInv(db) && Replayed(db, orderId, batchId, rows, db') && key in db.bySeq
    ensures db.bySeq[key] in db.records
    ensures key in db'.bySeq && db'.bySeq[key] == db.bySeq[key]
    ensures db.bySeq[key] in db'.records && db'.records[db.bySeq[key]] == db.records[db.bySeq[key]]
  {
    hide FirstNew, CountNew, SeqOk;
  }

  lemma NewRowStored(db: Db, orderId: Id, batchId: Id, rows: seq<Record>, db': Db, i: nat)
    requires Replayed(db, orderId, batchId, rows, db') && i < |rows| && FirstNew(db, rows, i)
    ensures rows[i].Key() in db'.bySeq && db'.bySeq[rows[i].Key()] == rows[i].id && rows[i].id in db'.records
    ensures db'.records[rows[i].id] == Numbered(db, rows, i)
    ensures db.nextVersion <= db'.records[rows[i].id].changeVersion < db'.nextVersion
  {
    hide SeqOk, NewIds, OnlyRows;
    var before := db.(batches := db'.batches);
    assert FirstNew(before, rows, i);
    assert RowStored(before, rows, i, db'.(cursors := db.cursors));
    CountSame(db, before, rows);
    CountSame(db, before, rows[..i]);
    NumbersBelow(db, rows, i);
  }

  // Newly stored rows get strictly increasing change versions in replay order.
  lemma VersionsFollowReplayOrder(moves: seq<Move>, orderId: Id, batchId: Id, rows: seq<Record>, i: nat, j: nat)
    requires i < j < |rows|
    requires var db := Run(Init(), moves).db;
             Backfill(db, orderId, batchId, rows).Ok? && FirstNew(db, rows, i) && FirstNew(db, rows, j)
    ensures var db' := Backfill(Run(Init(), moves).db, orderId, batchId, rows).value;
            rows[i].id in db'.records && rows[j].id in db'.records
            && db'.records[rows[i].id].changeVersion < db'.records[rows[j].id].changeVersion
  {
    hide Run, DbInv, Replayed;
    RunKeeps(moves);
    var db := Run(Init(), moves).db;
    assert !AllKnown(db, rows) by { assert rows[i] in rows; }
    BackfillReplays(db, orderId, batchId, rows);
    NewRowStored(db, orderId, batchId, rows, Backfill(db, orderId, batchId, rows).value, i);
    NewRowStored(db, orderId, batchId, rows, Backfill(db, orderId, batchId, rows).value, j);
    CountNewMonotone(db, rows, i, j);
  }

  // Replaying a submission once more, at once or after anything else has run,
  // changes nothing and is answered with the stored rows.
  lemma ReplayIsIdempotent(moves: seq<Move>, more: seq<Move>, orderId: Id, batchId: Id, rows: seq<Record>, again: Id)
    requires AllKnown(Run(Init(), moves).db, rows)
    ensures var db := Run(Init(), moves + more).db;
            Backfill(db, orderId, again, rows) == Ok(db)
  {
    hide Run, Evolves;
    var all := moves + more;
    assert all[..|moves|] == moves && all[..|all|] == all;
    RunEvolves(all, |moves|, |all|);
    RunKeeps(moves);
    RunKeeps(all);
    KnownStaysKnown(Run(Init(), moves).db, Run(Init(), all).db, rows);
    KnownChangesNothing(Run(Init(), all).db, orderId, again, rows);
  }

  lemma KnownStaysKnown(db: Db, db': Db, rows: seq<Record>)
    requires DbInv(db) && DbInv(db') && Evolves(db, db') && AllKnown(db, rows)
    ensures AllKnown(db', rows)
  {
    forall r | r in rows
      ensures r.Key() in db'.bySeq
    {
      var id := db.bySeq[r.Key()];
      assert RecordEvolves(db.records[id], db'.records[id]);
      assert RecordOk(db', id);
    }
  }

  // A committed replay leaves its rows known, so the next replay is answered.
  lemma ReplayMakesKnown(moves: seq<Move>, orderId: Id, batchId: Id, rows: seq<Record>)
    requires Backfill(Run(Init(), moves).db, orderId, batchId, rows).Ok?
    ensures AllKnown(Backfill(Run(Init(), moves).db, orderId, batchId, rows).value, rows)
  {
    hide Run, DbInv;
    RunKeeps(moves);
    var db := Run(Init(), moves).db;
    if AllKnown(db, rows) {
      KnownChangesNothing(db, orderId, batchId, rows);
    } else {
      BackfillReplays(db, orderId, batchId, rows);
      ReplayedKnows(db, orderId, batchId, rows, Backfill(db, orderId, batchId, rows).value);
    }
  }

  lemma ReplayedKnows(db: Db, orderId: Id, batchId: Id, rows: seq<Record>, db': Db)
    requires Replayed(db, orderId, batchId, rows, db')
    ensures AllKnown(db', rows)
  {
    hide FirstNew, CountNew, SeqOk;
  }
}
