// One concrete run of the sync service, for the failures that must be shown to
// happen: a record is replayed, its window has expired, it is routed to review,
// and the reviewing call crashes between its two commits.
module SyncScript {
  import opened Common
  import opened Status
  import opened SyncDb
  import opened SyncMachine
  import opened SyncStranded
  import ReplayOrder
  import RebuildIndex
  import TimeText
  import Window

  const ORDER := 1
  const DEVICE := 2
  const PERSON := 3
  const REVIEWER := 4
  const BATCH := 10
  const RECORD := 100
  const MANUAL := 200

  // 2020-01-01T00:00:00Z and a second later; the order's window is zero hours.
  const TAKEN := 737_790 * TimeText.DAY
  const NOW := TAKEN + TimeText.SECOND

  const INPUT := Input(Some(DEVICE), Some(PERSON), TAKEN, 1, 8.0, "")

  function Row(status: RecordStatus, changeVersion: int, manualId: Option<Id>, version: int): Record {
    Record(RECORD, ORDER, DEVICE, PERSON, TAKEN, NOW, 1, 8.0, "", status, changeVersion, None, manualId, BATCH, version)
  }

  const PENDING := Row(Pending, 1, None, 1)
  const WAITING := Row(AwaitingReview, 1, Some(MANUAL), 2)

  function Lease(status: BatchStatus, until: Option<int>, version: int): Batch {
    Batch(BATCH, ORDER, if until.Some? then Some(PERSON) else None, until, status, 1, 0, 0, None, version)
  }

  function ReviewRow(reviewed: bool): Manual {
    if reviewed then Manual(MANUAL, RECORD, ORDER, true, Some(REVIEWER), Some(Accept), 2)
    else Manual(MANUAL, RECORD, ORDER, false, None, None, 1)
  }

  // The tables after registration, replay, lease, resolution and review.
  const REGISTERED := EmptyDb().(orders := map[ORDER := Order(0, false)], devices := {DEVICE}, persons := {PERSON})
  const REPLAYED := REGISTERED.(
    records := map[RECORD := PENDING], bySeq := map[(ORDER, 1) := RECORD],
    batches := map[BATCH := Lease(BatchPending, None, 1)], nextVersion := 2, cursors := map[ORDER := 1])
  const LEASED := REPLAYED.(batches := map[BATCH := Lease(BatchLeasing, Some(NOW), 2)])
  const ROUTED := LEASED.(
    records := map[RECORD := WAITING], manuals := map[MANUAL := ReviewRow(false)], manualOf := map[RECORD := MANUAL])
  const REVIEWED := ROUTED.(manuals := map[MANUAL := ReviewRow(true)])

  const NOTHING := Oracle(false, [], [], [])
  const LISTING := Oracle(false, [RECORD], [], [])
  const SUPPLY := Oracle(false, [], [NOW], [MANUAL])

  // --- the run, move by move -------------------------------------------------------

  ghost predicate Stands(moves: seq<Move>, db: Db, now: int, workers: map<nat, Worker>) {
    var s := Run(Init(), moves);
    s.db == db && s.now == now && s.workers == workers
  }

  lemma Extend(moves: seq<Move>, m: Move)
    ensures Run(Init(), moves + [m]) == Next(Run(Init(), moves), m)
  {
    hide Next;
    assert (moves + [m])[..|moves|] == moves;
  }

  lemma Takes(moves: seq<Move>, db: Db, now: int, workers: map<nat, Worker>, w: nat, o: Oracle, db': Db, w': Worker)
    requires Stands(moves, db, now, workers) && w in workers
    requires StepWorker(db, now, workers[w], o) == (db', w') && ClockAfter(now, workers[w], o) == now
    ensures Stands(moves + [StepOf(w, o)], db', now, workers[w := w'])
  {
    hide Run, StepWorker, NoteAnswered, ClockAfter;
    Extend(moves, StepOf(w, o));
  }

  lemma Spawns(moves: seq<Move>, db: Db, now: int, workers: map<nat, Worker>, w: nat, call: Worker)
    requires Stands(moves, db, now, workers) && w !in workers && call.IsStart()
    ensures Stands(moves + [Spawn(w, call)], db, now, workers[w := call])
  {
    hide Run;
    Extend(moves, Spawn(w, call));
  }

  lemma Registration() returns (moves: seq<Move>)
    ensures Stands(moves, REGISTERED, NOW, map[])
  {
    hide Stands;
    NoMoves();
    var db1 := EmptyDb().(orders := map[ORDER := Order(0, false)]);
    assert map[][ORDER := Order(0, false)] == map[ORDER := Order(0, false)];
    Around([], EmptyDb(), 0, AddOrder(ORDER, 0), db1);
    var db2 := db1.(devices := {DEVICE});
    assert {} + {DEVICE} == {DEVICE};
    Around([] + [AddOrder(ORDER, 0)], db1, 0, AddDevice(DEVICE), db2);
    assert {} + {PERSON} == {PERSON};
    moves := [] + [AddOrder(ORDER, 0)] + [AddDevice(DEVICE)];
    Around(moves, db2, 0, AddPerson(PERSON), REGISTERED);
    moves := moves + [AddPerson(PERSON)];
    Ticks(moves);
    moves := moves + [Tick(NOW)];
  }

  lemma Around(moves: seq<Move>, db: Db, now: int, m: Move, db': Db)
    requires Stands(moves, db, now, map[]) && (m.AddOrder? || m.AddDevice? || m.AddPerson?)
    requires Next(Sys(db, now, map[], map[]), m).db == db'
    ensures Stands(moves + [m], db', now, map[])
  {
    hide Run;
    Extend(moves, m);
  }

  lemma Ticks(moves: seq<Move>)
    requires Stands(moves, REGISTERED, 0, map[])
    ensures Stands(moves + [Tick(NOW)], REGISTERED, NOW, map[])
  {
    hide Run;
    Extend(moves, Tick(NOW));
  }

  lemma NoMoves()
    ensures Stands([], EmptyDb(), 0, map[])
  {
  }

  // --- replay -------------------------------------------------------------------------

  lemma ReplayReads()
    ensures StepWorker(REGISTERED, NOW, BfStart(ORDER, [INPUT], BATCH, [RECORD]), NOTHING)
            == (REGISTERED, BfReplay(ORDER, BATCH, [PENDING.(changeVersion := 0)]))
  {
    var sorted := ReplayOrder.SortStable([INPUT]);
    assert [INPUT][1..] == [];
    assert ReplayOrder.SortStable([]) == [];
    assert sorted == [INPUT];
    assert ValidInput(INPUT);
    assert Rows(ORDER, BATCH, [INPUT], [RECORD], NOW) == [NewRecord(RECORD, ORDER, BATCH, INPUT, NOW)];
  }

  lemma ReplayStores()
    ensures Backfill(REGISTERED, ORDER, BATCH, [PENDING.(changeVersion := 0)]) == Ok(REPLAYED)
  {
    var r := PENDING.(changeVersion := 0);
    assert r in [r] && r.Key() == (ORDER, 1);
    var withBatch := REGISTERED.(batches := map[BATCH := Lease(BatchPending, None, 1)]);
    assert REGISTERED.batches[BATCH := Lease(BatchPending, None, 1)] == map[BATCH := Lease(BatchPending, None, 1)];
    var filled := REPLAYED.(cursors := map[]);
    InsertsOne(withBatch, r, filled);
    NewestOfOne(filled, r);
    assert filled.cursors[ORDER := 1] == map[ORDER := 1];
  }

  lemma InsertsOne(db: Db, r: Record, db': Db)
    requires InsertOne(db, r) == Ok(db')
    ensures InsertAll(db, [r]) == Ok(db')
  {
    assert [r][..0] == [];
    assert InsertAll(db, []) == Ok(db);
  }

  lemma NewestOfOne(db: Db, r: Record)
    ensures MaxChange(db, [r]) == Max(0, Stored(db, r).changeVersion)
  {
    assert [r][..0] == [];
    assert MaxChange(db, []) == 0;
  }

  lemma Replays(moves: seq<Move>) returns (longer: seq<Move>)
    requires Stands(moves, REGISTERED, NOW, map[])
    ensures moves <= longer && Stands(longer, REPLAYED, NOW, map[0 := Done(None)])
  {
    hide Stands, StepWorker, Backfill;
    var start := BfStart(ORDER, [INPUT], BATCH, [RECORD]);
    var replay := BfReplay(ORDER, BATCH, [PENDING.(changeVersion := 0)]);
    Spawns(moves, REGISTERED, NOW, map[], 0, start);
    longer := moves + [Spawn(0, start)];
    assert map[][0 := start] == map[0 := start];
    ReplayReads();
    Takes(longer, REGISTERED, NOW, map[0 := start], 0, NOTHING, REGISTERED, replay);
    longer := longer + [StepOf(0, NOTHING)];
    assert map[0 := start][0 := replay] == map[0 := replay];
    ReplayStores();
    ReplayCommits();
    Takes(longer, REGISTERED, NOW, map[0 := replay], 0, NOTHING, REPLAYED, Done(None));
    longer := longer + [StepOf(0, NOTHING)];
    assert map[0 := replay][0 := Done(None)] == map[0 := Done(None)];
  }

  lemma ReplayCommits()
    requires Backfill(REGISTERED, ORDER, BATCH, [PENDING.(changeVersion := 0)]) == Ok(REPLAYED)
    ensures StepWorker(REGISTERED, NOW, BfReplay(ORDER, BATCH, [PENDING.(changeVersion := 0)]), NOTHING)
            == (REPLAYED, Done(None))
  {
    hide Backfill;
  }

  // --- lease, listing and routing --------------------------------------------------------

  lemma Leases()
    ensures StepWorker(REPLAYED, NOW, PbStart(BATCH, PERSON, 0), NOTHING) == (REPLAYED, PbClaim(BATCH, PERSON, NOW))
    ensures StepWorker(REPLAYED, NOW, PbClaim(BATCH, PERSON, NOW), NOTHING) == (LEASED, PbReload(BATCH))
    ensures StepWorker(LEASED, NOW, PbReload(BATCH), NOTHING) == (LEASED, PbList(BATCH, LEASED.batches[BATCH]))
  {
    assert REPLAYED.batches[BATCH := LEASED.batches[BATCH]] == LEASED.batches;
  }

  lemma ListsIt()
    ensures StepWorker(LEASED, NOW, PbList(BATCH, LEASED.batches[BATCH]), LISTING)
            == (LEASED, PbResolve(BATCH, LEASED.batches[BATCH], [PENDING]))
  {
    assert LEASED.RowsOf(BATCH) == {RECORD};
    assert [RECORD][0] == RECORD;
    assert (set i | 0 <= i < |[RECORD]| :: [RECORD][i]) == {RECORD};
    assert Lists(LEASED, BATCH, [RECORD]);
    assert FetchListed(LEASED, BATCH, [RECORD]) == [PENDING];
  }

  lemma RoutesIt()
    ensures Resolve(LEASED, PENDING, NOW, MANUAL) == Ok(ROUTED)
  {
    assert Window.HoursDuration(0) == 0;
    assert Window.Expired(TAKEN, 0, NOW);
    assert LEASED.ManualByRecord(RECORD) == None;
    assert map[][MANUAL := ReviewRow(false)] == map[MANUAL := ReviewRow(false)];
    assert map[][RECORD := MANUAL] == map[RECORD := MANUAL];
    assert LEASED.records[RECORD := WAITING] == ROUTED.records;
  }

  lemma ResolvesIt()
    ensures StepWorker(LEASED, NOW, PbResolve(BATCH, LEASED.batches[BATCH], [PENDING]), SUPPLY)
            == (ROUTED, PbFinish(BATCH, LEASED.batches[BATCH], 1))
    ensures ClockAfter(NOW, PbResolve(BATCH, LEASED.batches[BATCH], [PENDING]), SUPPLY) == NOW
  {
    hide Resolve;
    RoutesIt();
    var work := Work([PENDING], SUPPLY);
    assert work == [Resolution(PENDING, NOW, MANUAL)];
    assert work[..0] == [];
    assert ResolveAll(LEASED, []) == Ok(LEASED);
  }

  lemma Routes(moves: seq<Move>, rest: Worker) returns (longer: seq<Move>, rest': Worker)
    requires Stands(moves, REPLAYED, NOW, map[0 := rest])
    ensures moves <= longer && Stands(longer, ROUTED, NOW, map[0 := rest, 1 := rest']) && rest'.PbFinish?
  {
    hide Stands, StepWorker, ClockAfter;
    var w0, w1, w2 := PbStart(BATCH, PERSON, 0), PbClaim(BATCH, PERSON, NOW), PbReload(BATCH);
    var batch := LEASED.batches[BATCH];
    var w3, w4, w5 := PbList(BATCH, batch), PbResolve(BATCH, batch, [PENDING]), PbFinish(BATCH, batch, 1);
    Spawns(moves, REPLAYED, NOW, map[0 := rest], 1, w0);
    longer := moves + [Spawn(1, w0)];
    Two(rest, w0, w0);
    Leases();
    ClockStands(w0, NOTHING);
    ClockStands(w1, NOTHING);
    ClockStands(w2, NOTHING);
    Takes(longer, REPLAYED, NOW, map[0 := rest, 1 := w0], 1, NOTHING, REPLAYED, w1);
    Two(rest, w0, w1);
    longer := longer + [StepOf(1, NOTHING)];
    Takes(longer, REPLAYED, NOW, map[0 := rest, 1 := w1], 1, NOTHING, LEASED, w2);
    Two(rest, w1, w2);
    longer := longer + [StepOf(1, NOTHING)];
    Takes(longer, LEASED, NOW, map[0 := rest, 1 := w2], 1, NOTHING, LEASED, w3);
    Two(rest, w2, w3);
    longer := longer + [StepOf(1, NOTHING)];
    ListsIt();
    ClockStands(w3, LISTING);
    Takes(longer, LEASED, NOW, map[0 := rest, 1 := w3], 1, LISTING, LEASED, w4);
    Two(rest, w3, w4);
    longer := longer + [StepOf(1, LISTING)];
    ResolvesIt();
    Takes(longer, LEASED, NOW, map[0 := rest, 1 := w4], 1, SUPPLY, ROUTED, w5);
    Two(rest, w4, w5);
    longer, rest' := longer + [StepOf(1, SUPPLY)], w5;
  }

  lemma Two(rest: Worker, w: Worker, w': Worker)
    ensures map[0 := rest, 1 := w][1 := w'] == map[0 := rest, 1 := w']
    ensures map[0 := rest][1 := w] == map[0 := rest, 1 := w]
  {
  }

  lemma ClockStands(w: Worker, o: Oracle)
    requires !w.PbResolve?
    ensures ClockAfter(NOW, w, o) == NOW
  {
  }

  // --- review, and the crash before the move ------------------------------------------------

  lemma Reviews()
    ensures StepWorker(ROUTED, NOW, MvStart(RECORD, REVIEWER, Accept), NOTHING)
            == (ROUTED, MvManual(WAITING, REVIEWER, Accept))
    ensures StepWorker(ROUTED, NOW, MvManual(WAITING, REVIEWER, Accept), NOTHING)
            == (ROUTED, MvReview(WAITING, ReviewRow(false), REVIEWER, Accept))
    ensures StepWorker(ROUTED, NOW, MvReview(WAITING, ReviewRow(false), REVIEWER, Accept), NOTHING)
            == (REVIEWED, MvRecord(WAITING, MANUAL, Accept))
  {
    assert ROUTED.ManualByRecord(RECORD) == Some(ReviewRow(false));
    assert ROUTED.manuals[MANUAL := ReviewRow(true)] == REVIEWED.manuals;
  }

  lemma ReviewsThenCrashes(moves: seq<Move>, a: Worker, b: Worker) returns (longer: seq<Move>)
    requires Stands(moves, ROUTED, NOW, map[0 := a, 1 := b])
    ensures Stands(longer, REVIEWED, NOW, map[0 := a, 1 := b])
  {
    hide Stands, StepWorker, ClockAfter;
    var w0, w1 := MvStart(RECORD, REVIEWER, Accept), MvManual(WAITING, REVIEWER, Accept);
    var w2, w3 := MvReview(WAITING, ReviewRow(false), REVIEWER, Accept), MvRecord(WAITING, MANUAL, Accept);
    Reviews();
    Spawns(moves, ROUTED, NOW, map[0 := a, 1 := b], 2, w0);
    longer := moves + [Spawn(2, w0)];
    Three(a, b, w0, w1);
    ClockStands(w0, NOTHING);
    ClockStands(w1, NOTHING);
    ClockStands(w2, NOTHING);
    Takes(longer, ROUTED, NOW, map[0 := a, 1 := b, 2 := w0], 2, NOTHING, ROUTED, w1);
    longer := longer + [StepOf(2, NOTHING)];
    Three(a, b, w1, w2);
    Takes(longer, ROUTED, NOW, map[0 := a, 1 := b, 2 := w1], 2, NOTHING, ROUTED, w2);
    longer := longer + [StepOf(2, NOTHING)];
    Three(a, b, w2, w3);
    Takes(longer, ROUTED, NOW, map[0 := a, 1 := b, 2 := w2], 2, NOTHING, REVIEWED, w3);
    longer := longer + [StepOf(2, NOTHING)];
    Crashes(longer, a, b, w3);
    longer := longer + [Crash(2)];
  }

  lemma Three(a: Worker, b: Worker, w: Worker, w': Worker)
    ensures map[0 := a, 1 := b][2 := w] == map[0 := a, 1 := b, 2 := w]
    ensures map[0 := a, 1 := b, 2 := w][2 := w'] == map[0 := a, 1 := b, 2 := w']
  {
  }

  lemma Crashes(moves: seq<Move>, a: Worker, b: Worker, w: Worker)
    requires Stands(moves, REVIEWED, NOW, map[0 := a, 1 := b, 2 := w])
    ensures Stands(moves + [Crash(2)], REVIEWED, NOW, map[0 := a, 1 := b])
  {
    hide Run;
    Extend(moves, Crash(2));
    assert map[0 := a, 1 := b, 2 := w] - {2} == map[0 := a, 1 := b];
  }

  // --- what the run shows ---------------------------------------------------------------------

  // A reviewed manual row whose record still waits is reachable, with nobody left
  // to move it.
  lemma StrandedHappens() returns (moves: seq<Move>)
    ensures Stranded(Run(Init(), moves), RECORD)
  {
    hide Stands, Run;
    moves := Registration();
    moves := Replays(moves);
    var b;
    moves, b := Routes(moves, Done(None));
    moves := ReviewsThenCrashes(moves, Done(None), b);
    ReviewedIsStranded(moves, Done(None), b);
  }

  lemma ReviewedIsStranded(moves: seq<Move>, a: Worker, b: Worker)
    requires Stands(moves, REVIEWED, NOW, map[0 := a, 1 := b]) && a.Done? && b.PbFinish?
    ensures Stranded(Run(Init(), moves), RECORD)
  {
    hide Run;
  }

  // A record can be stored between the two statements of a rebuild: the counter
  // the command then writes is already taken.
  lemma RebuildCanLoseTheRace() returns (moves: seq<Move>, i: nat, j: nat)
    ensures i <= j <= |moves|
    ensures RebuildIndex.IsMaxChange(Run(Init(), moves[..i]).db, None, 0)
    ensures !RebuildIndex.CounterExact(Run(Init(), moves[..j]).db.(nextVersion := 0 + 1))
  {
    hide Run;
    var before := Registration();
    moves := Replays(before);
    i, j := |before|, |moves|;
    assert moves[..i] == before && moves[..j] == moves;
    RebuildIndex.RebuildRace(moves, i, j, 0);
    assert RECORD in REPLAYED.records && RECORD !in REGISTERED.records;
  }
}
