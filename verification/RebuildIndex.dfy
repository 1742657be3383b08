// opsctl rebuild-index: recompute the change counter and the per-order cursors.
module RebuildIndex {
  import opened Common
  import opened SyncDb
  import opened SyncInv
  import opened SyncStore
  import opened SyncMachine

  predicate Counts(r: Record, orderId: Option<Id>) {
    orderId.None? || orderId == Some(r.orderId)
  }

  // COALESCE(MAX(change_version), 0) over all records or over one order's.
  ghost predicate IsMaxChange(db: Db, orderId: Option<Id>, v: int) {
    && (forall id | id in db.records && Counts(db.records[id], orderId) :: db.records[id].changeVersion <= v)
    && (HasChange(db, orderId, v) || (v == 0 && forall id | id in db.records :: !Counts(db.records[id], orderId)))
  }

  // The counter and cursors are what a recomputation gives.
  ghost predicate CounterExact(db: Db) {
    IsMaxChange(db, None, db.nextVersion - 1)
  }

  ghost predicate CursorsExact(db: Db) {
    && (forall o | o in db.cursors :: IsMaxChange(db, Some(o), db.cursors[o]))
    && (forall id | id in db.records :: db.records[id].orderId in db.cursors)
  }

  method MaxChangeVersion(store: Store, orderId: Option<Id>) returns (v: int)
    ensures IsMaxChange(store.Tables(), orderId, v)
  {
    v := 0;
    var found := false;
    var rest := store.records.Keys;
    while rest != {}
      invariant rest <= store.records.Keys
      invariant forall id | id in store.records && id !in rest && Counts(store.records[id], orderId) ::
                  found && store.records[id].changeVersion <= v
      invariant found ==> HasChange(store.Tables(), orderId, v)
      invariant !found ==> v == 0
      decreases rest
    {
      var id :| id in rest;
      if Counts(store.records[id], orderId) && (!found || store.records[id].changeVersion > v) {
        found, v := true, store.records[id].changeVersion;
        assert HasChange(store.Tables(), orderId, v);
      }
      rest := rest - {id};
    }
  }

  lemma MaxChangeUnique(db: Db, orderId: Option<Id>, v: int, u: int)
    requires IsMaxChange(db, orderId, v) && IsMaxChange(db, orderId, u)
    ensures v == u
  {
    if HasChange(db, orderId, v) {
      var id :| id in db.records && db.records[id].changeVersion == v
                && (orderId.None? || orderId == Some(db.records[id].orderId));
      assert Counts(db.records[id], orderId);
    }
    if HasChange(db, orderId, u) {
      var id :| id in db.records && db.records[id].changeVersion == u
                && (orderId.None? || orderId == Some(db.records[id].orderId));
      assert Counts(db.records[id], orderId);
    }
  }

  // The incrementally maintained index is, at every reachable point, the one a
  // recomputation gives; versions are distinct.
  lemma IndexIsExact(moves: seq<Move>)
    ensures var db := Run(Init(), moves).db;
            && CounterExact(db) && CursorsExact(db)
            && forall a, b | a in db.records && b in db.records ::
                 db.records[a].changeVersion == db.records[b].changeVersion ==> a == b
  {
    hide Run;
    RunKeeps(moves);
    InvIsExact(Run(Init(), moves).db);
  }

  ghost predicate Bounded(db: Db) {
    forall id | id in db.records ::
      && 1 <= db.records[id].changeVersion < db.nextVersion
      && db.records[id].orderId in db.cursors
      && db.records[id].changeVersion <= db.cursors[db.records[id].orderId]
  }

  lemma InvBounds(db: Db)
    requires DbInv(db)
    ensures Bounded(db) && IndexOk(db)
  {
    hide Linked, KeysOk, IndexOk, BatchOk;
    assert forall id | id in db.records :: RecordOk(db, id);
  }

  lemma InvIsExact(db: Db)
    requires DbInv(db)
    ensures CounterExact(db) && CursorsExact(db)
  {
    hide DbInv, CounterExact, IndexOk, IsMaxChange;
    InvBounds(db);
    CounterFollows(db);
    forall o | o in db.cursors
      ensures IsMaxChange(db, Some(o), db.cursors[o])
    {
      CursorFollows(db, o);
    }
  }

  lemma CounterFollows(db: Db)
    requires Bounded(db) && IndexOk(db)
    ensures CounterExact(db)
  {
  }

  lemma CursorFollows(db: Db, o: Id)
    requires Bounded(db) && IndexOk(db) && o in db.cursors
    ensures IsMaxChange(db, Some(o), db.cursors[o])
  {
  }

  // What a rebuild leaves: recomputed counter and cursors, a cursor for every
  // order, and nothing else changed.
  ghost predicate Rebuilt(db: Db, db': Db) {
    && db' == db.(nextVersion := db'.nextVersion, cursors := db'.cursors)
    && CounterExact(db')
    && db'.cursors.Keys == db.cursors.Keys + db.orders.Keys
    && forall o | o in db'.cursors :: IsMaxChange(db, Some(o), db'.cursors[o])
  }

  // The command, run while nobody writes, whatever state the index was in.
  method Rebuild(store: Store)
    modifies store
    ensures Rebuilt(old(store.Tables()), store.Tables())
  {
    ghost var was := store.Tables();
    var maxVer := MaxChangeVersion(store, None);
    store.nextVersion := maxVer + 1;
    RefreshCursors(store);
    InsertCursors(store);
    CounterFromMax(was, store.Tables(), maxVer);
    forall o | o in store.cursors
      ensures IsMaxChange(was, Some(o), store.cursors[o])
    {
      SameRecordsSameMax(store.Tables(), was, Some(o), store.cursors[o]);
    }
  }

  lemma SameRecordsSameMax(db: Db, db': Db, orderId: Option<Id>, v: int)
    requires db'.records == db.records && IsMaxChange(db, orderId, v)
    ensures IsMaxChange(db', orderId, v)
  {
    if HasChange(db, orderId, v) {
      assert HasChange(db', orderId, v);
    }
  }

  lemma CounterFromMax(db: Db, db': Db, maxVer: int)
    requires IsMaxChange(db, None, maxVer) && db'.records == db.records && db'.nextVersion == maxVer + 1
    ensures CounterExact(db')
  {
    SameRecordsSameMax(db, db', None, maxVer);
  }

  // UPDATE sync_state: every stored cursor is recomputed.
  method RefreshCursors(store: Store)
    modifies store`cursors
    ensures store.cursors.Keys == old(store.cursors).Keys
    ensures forall o | o in store.cursors :: IsMaxChange(store.Tables(), Some(o), store.cursors[o])
  {
    ghost var was := store.Tables();
    var rest := store.cursors.Keys;
    while rest != {}
      invariant rest <= store.cursors.Keys == was.cursors.Keys
      invariant forall o | o in store.cursors && o !in rest :: IsMaxChange(was, Some(o), store.cursors[o])
      decreases rest
    {
      var o :| o in rest;
      var v := MaxChangeVersion(store, Some(o));
      SameRecordsSameMax(store.Tables(), was, Some(o), v);
      store.cursors := store.cursors[o := v];
      rest := rest - {o};
    }
    forall o | o in store.cursors
      ensures IsMaxChange(store.Tables(), Some(o), store.cursors[o])
    {
      SameRecordsSameMax(was, store.Tables(), Some(o), store.cursors[o]);
    }
  }

  // INSERT INTO sync_state: orders without a cursor get one.
  method InsertCursors(store: Store)
    requires forall o | o in store.cursors :: IsMaxChange(store.Tables(), Some(o), store.cursors[o])
    modifies store`cursors
    ensures store.cursors.Keys == old(store.cursors).Keys + store.orders.Keys
    ensures forall o | o in store.cursors :: IsMaxChange(store.Tables(), Some(o), store.cursors[o])
  {
    ghost var was := store.Tables();
    var rest := store.orders.Keys - store.cursors.Keys;
    while rest != {}
      invariant rest <= store.orders.Keys - store.cursors.Keys
      invariant store.cursors.Keys + rest == was.cursors.Keys + store.orders.Keys
      invariant forall o | o in store.cursors :: IsMaxChange(was, Some(o), store.cursors[o])
      decreases rest
    {
      var o :| o in rest;
      var v := MaxChangeVersion(store, Some(o));
      SameRecordsSameMax(store.Tables(), was, Some(o), v);
      store.cursors := store.cursors[o := v];
      rest := rest - {o};
    }
    forall o | o in store.cursors
      ensures IsMaxChange(store.Tables(), Some(o), store.cursors[o])
    {
      SameRecordsSameMax(was, store.Tables(), Some(o), store.cursors[o]);
    }
  }

  // At every reachable point a rebuild keeps the counter and every cursor, and
  // only adds zero cursors for orders without records.
  lemma RebuildChangesNothing(moves: seq<Move>, db': Db)
    requires Rebuilt(Run(Init(), moves).db, db')
    ensures var db := Run(Init(), moves).db;
            && db' == db.(cursors := db'.cursors)
            && db'.cursors.Keys == db.cursors.Keys + db.orders.Keys
            && forall o | o in db'.cursors ::
                 if o in db.cursors then db'.cursors[o] == db.cursors[o]
                 else db'.cursors[o] == 0 && forall id | id in db.records :: db.records[id].orderId != o
  {
    hide Run, IsMaxChange, CounterExact, DbInv, CursorsExact;
    RunKeeps(moves);
    var db := Run(Init(), moves).db;
    InvIsExact(db);
    SameNext(db, db');
    forall o | o in db'.cursors
      ensures if o in db.cursors then db'.cursors[o] == db.cursors[o]
              else db'.cursors[o] == 0 && forall id | id in db.records :: db.records[id].orderId != o
    {
      SameCursor(db, o, db'.cursors[o]);
    }
  }

  lemma SameNext(db: Db, db': Db)
    requires CounterExact(db) && CounterExact(db') && db'.records == db.records
    ensures db'.nextVersion == db.nextVersion
  {
    hide IsMaxChange;
    SameRecordsSameMax(db', db, None, db'.nextVersion - 1);
    MaxChangeUnique(db, None, db.nextVersion - 1, db'.nextVersion - 1);
  }

  lemma SameCursor(db: Db, o: Id, v: int)
    requires CursorsExact(db) && IsMaxChange(db, Some(o), v)
    ensures if o in db.cursors then v == db.cursors[o]
            else v == 0 && forall id | id in db.records :: db.records[id].orderId != o
  {
    if o in db.cursors {
      MaxChangeUnique(db, Some(o), v, db.cursors[o]);
    }
  }

  // The command reads the maximum and writes the counter in two statements. The
  // counter it writes is exact if and only if no record was stored in between.
  lemma RebuildRace(moves: seq<Move>, i: nat, j: nat, maxVer: int)
    requires i <= j <= |moves|
    requires IsMaxChange(Run(Init(), moves[..i]).db, None, maxVer)
    ensures CounterExact(Run(Init(), moves[..j]).db.(nextVersion := maxVer + 1))
            <==> Run(Init(), moves[..j]).db.records.Keys == Run(Init(), moves[..i]).db.records.Keys
  {
    hide Run, DbInv, Evolves, CounterExact, IsMaxChange;
    RunKeeps(moves[..i]);
    RunKeeps(moves[..j]);
    RunEvolves(moves, i, j);
    RaceBetween(Run(Init(), moves[..i]).db, Run(Init(), moves[..j]).db, maxVer);
  }

  lemma RaceBetween(db: Db, db': Db, maxVer: int)
    requires DbInv(db) && DbInv(db') && Evolves(db, db') && IsMaxChange(db, None, maxVer)
    ensures CounterExact(db'.(nextVersion := maxVer + 1)) <==> db'.records.Keys == db.records.Keys
  {
    hide DbInv, Evolves, IsMaxChange;
    InvIsExact(db);
    InvIsExact(db');
    MaxChangeUnique(db, None, maxVer, db.nextVersion - 1);
    StaleCounter(db, db');
  }

  lemma StaleCounter(db: Db, db': Db)
    requires Evolves(db, db') && CounterExact(db) && CounterExact(db')
    ensures CounterExact(db'.(nextVersion := db.nextVersion)) <==> db'.records.Keys == db.records.Keys
  {
    var stale := db'.(nextVersion := db.nextVersion);
    forall id | id in db.records
      ensures id in db'.records && db'.records[id].changeVersion == db.records[id].changeVersion
    {
      assert RecordEvolves(db.records[id], db'.records[id]);
    }
    if db'.records.Keys == db.records.Keys {
      if HasChange(db, None, db.nextVersion - 1) {
        assert HasChange(stale, None, db.nextVersion - 1);
      }
    } else {
      var id :| id in db'.records && id !in db.records;
      assert db.nextVersion <= db'.records[id].changeVersion;
    }
  }
}
