// Incremental pull: the change-version query, the handler's cursor, and a client
// that keeps passing back the highest version it has seen.
module Pull {
  import opened Common
  import opened SyncDb
  import opened SyncInv
  import opened SyncStore
  import opened SyncMachine

  const DEFAULT_PAGE_SIZE := 50
  const MAX_PAGE_SIZE := 200

  // The limit PullChanges passes on.
  function EffectiveLimit(limit: int): (n: nat)
    ensures 1 <= n <= MAX_PAGE_SIZE
    ensures 1 <= limit <= MAX_PAGE_SIZE ==> n == limit
  {
    if limit <= 0 || limit > MAX_PAGE_SIZE then DEFAULT_PAGE_SIZE else limit
  }

  function After(db: Db, since: int): set<Id> {
    set id | id in db.records && db.records[id].changeVersion > since
  }

  predicate Ascending(db: Db, ids: seq<Id>) {
    (forall i | 0 <= i < |ids| :: ids[i] in db.records)
    && forall i, j | 0 <= i < j < |ids| :: db.records[ids[i]].changeVersion < db.records[ids[j]].changeVersion
  }

  function Ids(ids: seq<Id>): set<Id> {
    set i | 0 <= i < |ids| :: ids[i]
  }

  // What ORDER BY change_version LIMIT returns: distinct rows after the cursor,
  // in order, none skipped, and fewer than the limit only when no more exist.
  ghost predicate IsPage(db: Db, since: int, limit: nat, ids: seq<Id>) {
    && |ids| <= limit
    && Ascending(db, ids)
    && Ids(ids) <= After(db, since)
    && (forall id, i | id in After(db, since) && id !in Ids(ids) && 0 <= i < |ids| ::
          db.records[ids[i]].changeVersion < db.records[id].changeVersion)
    && (|ids| < limit ==> Ids(ids) == After(db, since))
  }

  // The highest version in a page, or the cursor it was asked with.
  function Cursor(db: Db, since: int, ids: seq<Id>): int {
    if ids == [] || ids[|ids| - 1] !in db.records then since else db.records[ids[|ids| - 1]].changeVersion
  }

  // --- the query and the handler, as loops ------------------------------------

  ghost predicate DistinctVersions(db: Db) {
    forall a, b | a in db.records && b in db.records ::
      db.records[a].changeVersion == db.records[b].changeVersion ==> a == b
  }

  lemma {:induction false} LeastExists(db: Db, s: set<Id>)
    requires s != {} && s <= db.records.Keys
    ensures exists id :: id in s && forall k | k in s :: db.records[id].changeVersion <= db.records[k].changeVersion
  {
    var x :| x in s;
    if s != {x} {
      LeastExists(db, s - {x});
      var y :| y in s - {x} && forall k | k in s - {x} :: db.records[y].changeVersion <= db.records[k].changeVersion;
      var z := if db.records[x].changeVersion <= db.records[y].changeVersion then x else y;
      assert forall k | k in s :: db.records[z].changeVersion <= db.records[k].changeVersion;
    }
  }

  lemma IdsGrow(ids: seq<Id>, id: Id)
    ensures Ids(ids + [id]) == Ids(ids) + {id}
  {
    assert (ids + [id])[|ids|] == id;
    assert forall i | 0 <= i < |ids| :: (ids + [id])[i] == ids[i];
  }

  // The page so far, and the rows still to choose from.
  ghost predicate Picking(db: Db, since: int, ids: seq<Id>, rest: set<Id>) {
    && Ascending(db, ids) && rest <= db.records.Keys
    && rest + Ids(ids) == After(db, since) && rest !! Ids(ids)
    && forall id, i | id in rest && 0 <= i < |ids| :: db.records[ids[i]].changeVersion < db.records[id].changeVersion
  }

  ghost predicate Least(db: Db, rest: set<Id>, id: Id) {
    && rest <= db.records.Keys && id in rest
    && forall k | k in rest :: db.records[id].changeVersion <= db.records[k].changeVersion
  }

  lemma PickLeast(db: Db, since: int, ids: seq<Id>, rest: set<Id>, id: Id)
    requires Picking(db, since, ids, rest) && Least(db, rest, id) && DistinctVersions(db)
    ensures Picking(db, since, ids + [id], rest - {id})
  {
    IdsGrow(ids, id);
  }

  lemma Picked(db: Db, since: int, limit: nat, ids: seq<Id>, rest: set<Id>)
    requires Picking(db, since, ids, rest) && |ids| <= limit && (rest == {} || |ids| == limit)
    ensures IsPage(db, since, limit, ids)
  {
  }

  lemma NothingPicked(db: Db, since: int)
    ensures Picking(db, since, [], After(db, since))
  {
  }

  method ListRecordChanges(store: Store, since: int, limit: nat) returns (ids: seq<Id>)
    requires DistinctVersions(store.Tables())
    ensures IsPage(store.Tables(), since, limit, ids)
  {
    hide Picking, IsPage, DistinctVersions;
    ids := [];
    var rest := After(store.Tables(), since);
    NothingPicked(store.Tables(), since);
    while rest != {} && |ids| < limit
      invariant |ids| <= limit && rest <= store.records.Keys && Picking(store.Tables(), since, ids, rest)
      decreases rest
    {
      LeastExists(store.Tables(), rest);
      var id :| id in rest && forall k | k in rest :: store.records[id].changeVersion <= store.records[k].changeVersion;
      PickLeast(store.Tables(), since, ids, rest, id);
      ids, rest := ids + [id], rest - {id};
    }
    Picked(store.Tables(), since, limit, ids, rest);
  }

  // pullChanges: the rows and the version to pass back.
  method PullChanges(store: Store, since: int, limit: int) returns (ids: seq<Id>, next: int)
    requires DistinctVersions(store.Tables())
    ensures IsPage(store.Tables(), since, if 1 <= limit <= 200 then limit else 50, ids)
    ensures ids == [] ==> next == since
    ensures ids != [] ==> ids[|ids| - 1] in store.records && next == store.records[ids[|ids| - 1]].changeVersion
  {
    ids := ListRecordChanges(store, since, EffectiveLimit(limit));
    next := since;
    var i := 0;
    while i < |ids|
      invariant i <= |ids| && next == Cursor(store.Tables(), since, ids[..i])
      invariant 0 < i ==> ids[..i][|ids[..i]| - 1] == ids[i - 1]
    {
      assert ids[i] in After(store.Tables(), since) by { assert ids[i] in Ids(ids); }
      if store.records[ids[i]].changeVersion > next {
        next := store.records[ids[i]].changeVersion;
      }
      i := i + 1;
    }
    assert ids[..i] == ids;
  }

  // --- a client beside the machine ----------------------------------------------

  datatype Client = Client(cursor: int, received: seq<Id>)

  // The machine moves, or the client pulls a page.
  datatype Event = Other(move: Move) | Pulled(limit: int, ids: seq<Id>)

  datatype World = World(sys: Sys, client: Client)

  ghost function Happen(w: World, e: Event): World {
    match e
    case Other(m) => w.(sys := Next(w.sys, m))
    case Pulled(limit, ids) =>
      if IsPage(w.sys.db, w.client.cursor, EffectiveLimit(limit), ids) then
        w.(client := Client(Cursor(w.sys.db, w.client.cursor, ids), w.client.received + ids))
      else w
  }

  ghost function History(events: seq<Event>): World {
    if events == [] then World(Init(), Client(0, []))
    else Happen(History(events[..|events| - 1]), events[|events| - 1])
  }

  // Exactly the stored rows up to the cursor, once each, in ascending order.
  ghost predicate InStep(db: Db, c: Client) {
    && 0 <= c.cursor < db.nextVersion
    && Ascending(db, c.received)
    && Ids(c.received) == db.records.Keys - After(db, c.cursor)
  }

  lemma InStepStays(db: Db, db': Db, c: Client)
    requires RecordsEvolve(db, db') && InStep(db, c)
    ensures InStep(db', c)
  {
    forall id | id in db.records
      ensures id in db'.records && db'.records[id].changeVersion == db.records[id].changeVersion
    {
      assert RecordEvolves(db.records[id], db'.records[id]);
    }
    assert db'.records.Keys - After(db', c.cursor) == db.records.Keys - After(db, c.cursor);
  }

  lemma ReceivedUpTo(db: Db, c: Client, i: nat)
    requires InStep(db, c) && i < |c.received|
    ensures c.received[i] in db.records && db.records[c.received[i]].changeVersion <= c.cursor
  {
    assert c.received[i] in Ids(c.received);
  }

  lemma IdsConcat(a: seq<Id>, b: seq<Id>)
    ensures Ids(a + b) == Ids(a) + Ids(b)
  {
    forall id | id in Ids(a) + Ids(b)
      ensures id in Ids(a + b)
    {
      if id in Ids(a) {
        var i :| 0 <= i < |a| && a[i] == id;
        assert (a + b)[i] == id;
      } else {
        var i :| 0 <= i < |b| && b[i] == id;
        assert (a + b)[|a| + i] == id;
      }
    }
  }

  lemma PageCovers(db: Db, since: int, limit: nat, ids: seq<Id>)
    requires IsPage(db, since, limit, ids) && 0 < limit
    ensures Cursor(db, since, ids) >= since
    ensures Ids(ids) == After(db, since) - After(db, Cursor(db, since, ids))
  {
    var cursor := Cursor(db, since, ids);
    if ids != [] {
      var last := |ids| - 1;
      assert ids[last] in Ids(ids);
      forall id | id in After(db, since)
        ensures id in Ids(ids) <==> db.records[id].changeVersion <= cursor
      {
        if id in Ids(ids) {
          var i :| 0 <= i < |ids| && ids[i] == id;
          assert i == last || db.records[ids[i]].changeVersion < db.records[ids[last]].changeVersion;
        } else {
          assert db.records[ids[last]].changeVersion < db.records[id].changeVersion;
        }
      }
    } else {
      assert Ids(ids) == {};
    }
  }

  lemma PullAscends(db: Db, c: Client, limit: nat, ids: seq<Id>)
    requires InStep(db, c) && IsPage(db, c.cursor, limit, ids)
    ensures Ascending(db, c.received + ids)
  {
    var all := c.received + ids;
    forall i, j | 0 <= i < j < |all|
      ensures all[i] in db.records && all[j] in db.records
      ensures db.records[all[i]].changeVersion < db.records[all[j]].changeVersion
    {
      if i < |c.received| {
        ReceivedUpTo(db, c, i);
      }
      if j >= |c.received| {
        assert ids[j - |c.received|] in Ids(ids);
      }
    }
    forall i | 0 <= i < |all|
      ensures all[i] in db.records
    {
    }
  }

  lemma PullKeepsInStep(db: Db, c: Client, limit: nat, ids: seq<Id>)
    requires DbInv(db) && InStep(db, c) && IsPage(db, c.cursor, limit, ids) && 0 < limit
    ensures InStep(db, Client(Cursor(db, c.cursor, ids), c.received + ids))
  {
    hide DbInv, Ascending;
    PullAscends(db, c, limit, ids);
    IdsConcat(c.received, ids);
    PageCovers(db, c.cursor, limit, ids);
    CursorBelowNext(db, c, limit, ids);
    assert After(db, Cursor(db, c.cursor, ids)) <= After(db, c.cursor);
  }

  lemma CursorBelowNext(db: Db, c: Client, limit: nat, ids: seq<Id>)
    requires DbInv(db) && InStep(db, c) && IsPage(db, c.cursor, limit, ids)
    ensures Cursor(db, c.cursor, ids) < db.nextVersion
  {
    hide IndexOk, KeysOk, BatchOk;
    if ids != [] && ids[|ids| - 1] in db.records {
      assert RecordOk(db, ids[|ids| - 1]);
    }
  }

  // In every history of backfills, other calls, crashes and pulls of any limits,
  // the client holds exactly the stored records up to its cursor.
  lemma {:induction false} ClientStaysInStep(events: seq<Event>)
    ensures Inv(History(events).sys)
    ensures InStep(History(events).sys.db, History(events).client)
  {
    if events == [] {
      InitInv();
    } else {
      hide Inv, Next, InStep, IsPage, Evolves, MovesAlongEdges;
      var prefix := events[..|events| - 1];
      ClientStaysInStep(prefix);
      var w := History(prefix);
      match events[|events| - 1] {
        case Other(m) =>
          NextKeeps(w.sys, m);
          InStepStays(w.sys.db, Next(w.sys, m).db, w.client) by { EvolvesRecords(w.sys.db, Next(w.sys, m).db); }
        case Pulled(limit, ids) =>
          if IsPage(w.sys.db, w.client.cursor, EffectiveLimit(limit), ids) {
            PullKeepsInStep(w.sys.db, w.client, EffectiveLimit(limit), ids) by { InvTables(w.sys); }
          }
      }
    }
  }

  lemma EvolvesRecords(db: Db, db': Db)
    requires Evolves(db, db')
    ensures RecordsEvolve(db, db')
  {
  }

  lemma InvTables(s: Sys)
    requires Inv(s)
    ensures DbInv(s.db)
  {
  }

  function Backlog(db: Db, c: Client): nat {
    |After(db, c.cursor)|
  }

  lemma {:induction false} PageSize(db: Db, ids: seq<Id>)
    requires Ascending(db, ids)
    ensures |Ids(ids)| == |ids|
  {
    if ids != [] {
      var n := |ids| - 1;
      PageSize(db, ids[..n]);
      assert ids == ids[..n] + [ids[n]];
      IdsConcat(ids[..n], [ids[n]]);
      OneId(ids[n]);
      LastIsFresh(db, ids);
    }
  }

  lemma OneId(id: Id)
    ensures Ids([id]) == {id}
  {
    assert [id][0] == id;
  }

  lemma LastIsFresh(db: Db, ids: seq<Id>)
    requires Ascending(db, ids) && ids != []
    ensures ids[|ids| - 1] !in Ids(ids[..|ids| - 1])
  {
  }

  // Each pull takes the limit off the backlog, or empties it.
  lemma PullDrains(db: Db, c: Client, limit: int, ids: seq<Id>)
    requires IsPage(db, c.cursor, EffectiveLimit(limit), ids)
    ensures Backlog(db, Client(Cursor(db, c.cursor, ids), c.received + ids))
            == Max(0, Backlog(db, c) - EffectiveLimit(limit))
  {
    PageCovers(db, c.cursor, EffectiveLimit(limit), ids);
    PageSize(db, ids);
    var left := After(db, Cursor(db, c.cursor, ids));
    assert left <= After(db, c.cursor);
    assert |After(db, c.cursor) - left| == |After(db, c.cursor)| - |left|;
    if |ids| != EffectiveLimit(limit) {
      assert left == {};
    }
  }

  // Pulling page after page with nothing else moving.
  ghost predicate Polling(db: Db, c: Client, limit: int, pages: seq<seq<Id>>)
    decreases |pages|
  {
    pages == []
    || (IsPage(db, c.cursor, EffectiveLimit(limit), pages[0])
        && Polling(db, Client(Cursor(db, c.cursor, pages[0]), c.received + pages[0]), limit, pages[1..]))
  }

  ghost function Polled(db: Db, c: Client, pages: seq<seq<Id>>): Client
    decreases |pages|
  {
    if pages == [] then c
    else Polled(db, Client(Cursor(db, c.cursor, pages[0]), c.received + pages[0]), pages[1..])
  }

  // With backfills stopped, ceil(backlog / limit) pulls drain the store.
  lemma {:induction false} PollingDrains(db: Db, c: Client, limit: int, pages: seq<seq<Id>>)
    requires Polling(db, c, limit, pages)
    ensures Backlog(db, Polled(db, c, pages)) == Max(0, Backlog(db, c) - |pages| * EffectiveLimit(limit))
    decreases |pages|
  {
    hide IsPage, Backlog, EffectiveLimit;
    if pages != [] {
      var c' := Client(Cursor(db, c.cursor, pages[0]), c.received + pages[0]);
      PullDrains(db, c, limit, pages[0]);
      PollingDrains(db, c', limit, pages[1..]);
      OneFewer(Backlog(db, c), |pages|, EffectiveLimit(limit));
    }
  }

  lemma OneFewer(backlog: nat, n: nat, limit: nat)
    requires 0 < n
    ensures Max(0, Max(0, backlog - limit) - (n - 1) * limit) == Max(0, backlog - n * limit)
  {
    assert n * limit == (n - 1) * limit + limit;
  }

  // The query's loop may rely on distinct versions at every reachable point.
  lemma VersionsAreDistinct(moves: seq<Move>)
    ensures DistinctVersions(Run(Init(), moves).db)
  {
    hide Run;
    RunKeeps(moves);
  }
}
