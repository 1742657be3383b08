// When the replay of a submission commits: which row stops it, and with what error.
module ReplayCommits {
  import opened Common
  import opened Status
  import opened SyncDb
  import opened SyncInv
  import opened SyncTx
  import opened Replay

  // The uuid of row i is on a record already, of the table or of an earlier new row.
  ghost predicate IdUsed(db: Db, rows: seq<Record>, i: nat)
    requires i < |rows|
  {
    rows[i].id in db.records
    || exists j :: 0 <= j < i && FirstNew(db, rows, j) && rows[j].id == rows[i].id
  }

  predicate RefersKnown(db: Db, r: Record) {
    r.orderId in db.orders && r.deviceId in db.devices && r.responsibleId in db.persons
  }

  // Row i brings a new sequence number but cannot be stored.
  ghost predicate RowRefused(db: Db, rows: seq<Record>, i: nat)
    requires i < |rows|
  {
    FirstNew(db, rows, i) && (IdUsed(db, rows, i) || !RefersKnown(db, rows[i]))
  }

  ghost predicate Refused(db: Db, rows: seq<Record>) {
    exists i :: 0 <= i < |rows| && RowRefused(db, rows, i)
  }

  // Row i is the first that cannot be stored, and the error says why.
  ghost predicate StopsAt(db: Db, rows: seq<Record>, i: nat, error: Error)
    requires i < |rows|
  {
    && RowRefused(db, rows, i)
    && (forall j | 0 <= j < i :: !RowRefused(db, rows, j))
    && error == if IdUsed(db, rows, i) then AlreadyExists else Driver
  }

  lemma UsedAmong(db: Db, rows: seq<Record>, i: nat)
    requires i < |rows|
    ensures IdUsed(db, rows, i) <==> rows[i].id in db.records.Keys + NewIds(db, rows[..i])
  {
    forall j | 0 <= j < i
      ensures FirstNew(db, rows[..i], j) == FirstNew(db, rows, j) && rows[..i][j] == rows[j]
    {
    }
    if j :| 0 <= j < i && FirstNew(db, rows, j) && rows[j].id == rows[i].id {
      assert FirstNew(db, rows[..i], j) && rows[..i][j].id == rows[i].id;
    }
  }

  lemma PrefixRefused(db: Db, prefix: seq<Record>, r: Record, i: nat)
    requires i < |prefix|
    ensures RowRefused(db, prefix + [r], i) <==> RowRefused(db, prefix, i)
    ensures IdUsed(db, prefix + [r], i) <==> IdUsed(db, prefix, i)
  {
    hide FirstNew;
    PrefixSees(db, prefix, r, i);
    UsedAmong(db, prefix + [r], i);
    UsedAmong(db, prefix, i);
    assert (prefix + [r])[..i] == prefix[..i];
  }

  lemma PrefixStops(db: Db, prefix: seq<Record>, r: Record, i: nat, error: Error)
    requires i < |prefix| && StopsAt(db, prefix, i, error)
    ensures StopsAt(db, prefix + [r], i, error)
  {
    hide RowRefused, IdUsed;
    forall j | 0 <= j <= i
      ensures RowRefused(db, prefix + [r], j) <==> RowRefused(db, prefix, j)
    {
      PrefixRefused(db, prefix, r, j);
    }
    PrefixRefused(db, prefix, r, i);
  }

  lemma PrefixPasses(db: Db, prefix: seq<Record>, r: Record)
    requires !Refused(db, prefix)
    ensures forall j | 0 <= j < |prefix| :: !RowRefused(db, prefix + [r], j)
    ensures Refused(db, prefix + [r]) <==> RowRefused(db, prefix + [r], |prefix|)
  {
    hide RowRefused, IdUsed;
    forall j | 0 <= j < |prefix|
      ensures !RowRefused(db, prefix + [r], j)
    {
      PrefixRefused(db, prefix, r, j);
    }
  }

  lemma OneInsert(mid: Db, r: Record)
    ensures InsertOne(mid, r).Ok? <==> r.Key() in mid.bySeq || (r.id !in mid.records && RefersKnown(mid, r))
    ensures InsertOne(mid, r).Err? ==> InsertOne(mid, r).error == if r.id in mid.records then AlreadyExists else Driver
  {
  }

  lemma FilledKeys(db: Db, prefix: seq<Record>, mid: Db)
    requires Filled(db, prefix, mid)
    ensures KeptAndKeyed(db, prefix, mid) && mid.records.Keys == db.records.Keys + NewIds(db, prefix)
    ensures mid.orders == db.orders && mid.devices == db.devices && mid.persons == db.persons
  {
    hide FirstNew, CountNew, SeqOk, AllStored, OnlyRows, NewIds;
    KeysKept(db, prefix, mid);
  }

  lemma LastInsert(db: Db, prefix: seq<Record>, r: Record, mid: Db)
    requires Filled(db, prefix, mid)
    ensures var rows, n := prefix + [r], |prefix|;
            if RowRefused(db, rows, n) then
              InsertOne(mid, r) == Err(if IdUsed(db, rows, n) then AlreadyExists else Driver)
            else InsertOne(mid, r).Ok?
  {
    hide Filled, FirstNew, KeptAndKeyed, NewIds, IdUsed, InsertOne;
    FilledKeys(db, prefix, mid);
    LastIsNew(db, prefix, r, mid);
    UsedAmong(db, prefix + [r], |prefix|);
    assert (prefix + [r])[..|prefix|] == prefix;
    OneInsert(mid, r);
  }

  lemma {:induction false} InsertsExactly(db: Db, rows: seq<Record>)
    requires SeqOk(db)
    ensures InsertAll(db, rows).Ok? <==> !Refused(db, rows)
    ensures InsertAll(db, rows).Err? ==>
              exists i :: 0 <= i < |rows| && StopsAt(db, rows, i, InsertAll(db, rows).error)
  {
    hide SeqOk, Filled, RowRefused, IdUsed, FirstNew, InsertOne;
    if rows != [] {
      var prefix, r := rows[..|rows| - 1], rows[|rows| - 1];
      assert rows == prefix + [r];
      InsertsExactly(db, prefix);
      if InsertAll(db, prefix).Ok? {
        InsertAllFills(db, prefix);
        LastInsert(db, prefix, r, InsertAll(db, prefix).value);
        PrefixPasses(db, prefix, r);
        assert InsertAll(db, rows).Err? ==> StopsAt(db, rows, |prefix|, InsertAll(db, rows).error);
      } else {
        var i :| 0 <= i < |prefix| && StopsAt(db, prefix, i, InsertAll(db, prefix).error);
        PrefixStops(db, prefix, r, i, InsertAll(db, prefix).error);
      }
    }
  }
}
