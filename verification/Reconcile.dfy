// The reconciliation diff: day totals of the system's records against the hours
// the customer reported. Decimals are exact, so they are reals here.
module Reconcile {
  import opened Common
  import opened TimeText

  datatype Input = Input(device: string, date: string, hours: real) {
    function Slot(): Key { Key(device, date) }
  }

  datatype Key = Key(device: string, date: string)

  datatype PairKind = Matched | OverReported | UnderReported | SystemOnly | CustomerOnly

  datatype Pair = Pair(device: string, date: string, systemHours: real, customerHours: real, delta: real, kind: PairKind) {
    function Slot(): Key { Key(device, date) }
  }

  datatype Summary = Summary(
    matched: nat, overReported: nat, underReported: nat, systemOnly: nat, customerOnly: nat,
    totalDelta: real, hasConflict: bool)

  datatype Comparison = Comparison(pairs: seq<Pair>, summary: Summary)

  // --- specification ------------------------------------------------------------

  function Total(inputs: seq<Input>, k: Key): real {
    if inputs == [] then 0.0
    else
      var last := inputs[|inputs| - 1];
      Total(inputs[..|inputs| - 1], k) + if last.Slot() == k then last.hours else 0.0
  }

  function Sum(inputs: seq<Input>): real {
    if inputs == [] then 0.0 else Sum(inputs[..|inputs| - 1]) + inputs[|inputs| - 1].hours
  }

  function Slots(inputs: seq<Input>): set<Key> {
    set e | e in inputs :: e.Slot()
  }

  predicate KeyLess(a: Key, b: Key) {
    if a.date != b.date then TextLess(a.date, b.date) else TextLess(a.device, b.device)
  }

  predicate StrictlySorted(keys: seq<Key>) {
    forall i, j | 0 <= i < j < |keys| :: KeyLess(keys[i], keys[j])
  }

  function Members(keys: seq<Key>): set<Key> {
    set k | k in keys
  }

  function KeysOf(pairs: seq<Pair>): (keys: seq<Key>)
    ensures |keys| == |pairs| && forall i | 0 <= i < |keys| :: keys[i] == pairs[i].Slot()
  {
    seq(|pairs|, i requires 0 <= i < |pairs| => pairs[i].Slot())
  }

  // A day on one side only, or equal, over or under.
  predicate KindFits(p: Pair, onSystem: bool, onCustomer: bool) {
    match p.kind
    case CustomerOnly => onCustomer && !onSystem
    case SystemOnly => onSystem && !onCustomer
    case Matched => onSystem && onCustomer && p.customerHours == p.systemHours
    case OverReported => onSystem && onCustomer && p.customerHours > p.systemHours
    case UnderReported => onSystem && onCustomer && p.customerHours < p.systemHours
  }

  predicate PairFits(system: seq<Input>, customer: seq<Input>, p: Pair) {
    && p.systemHours == Total(system, p.Slot()) && p.customerHours == Total(customer, p.Slot())
    && p.delta == p.customerHours - p.systemHours
    && KindFits(p, p.Slot() in Slots(system), p.Slot() in Slots(customer))
  }

  function CountKind(pairs: seq<Pair>, kind: PairKind): nat {
    if pairs == [] then 0
    else CountKind(pairs[..|pairs| - 1], kind) + if pairs[|pairs| - 1].kind == kind then 1 else 0
  }

  function SumDeltas(pairs: seq<Pair>): real {
    if pairs == [] then 0.0 else SumDeltas(pairs[..|pairs| - 1]) + pairs[|pairs| - 1].delta
  }

  predicate Counts(pairs: seq<Pair>, s: Summary) {
    && s.matched == CountKind(pairs, Matched)
    && s.overReported == CountKind(pairs, OverReported)
    && s.underReported == CountKind(pairs, UnderReported)
    && s.systemOnly == CountKind(pairs, SystemOnly)
    && s.customerOnly == CountKind(pairs, CustomerOnly)
  }

  // Round(4): half away from zero.
  function Round4(x: real): real {
    if x < 0.0 then -RoundUp4(-x) else RoundUp4(x)
  }

  function RoundUp4(x: real): real {
    (x * 10000.0 + 0.5).Floor as real / 10000.0
  }

  // One pair per day on either side, in order, and the summary of the pairs.
  ghost predicate IsDiff(system: seq<Input>, customer: seq<Input>, d: Comparison) {
    && StrictlySorted(KeysOf(d.pairs))
    && Members(KeysOf(d.pairs)) == Slots(system) + Slots(customer)
    && (forall i | 0 <= i < |d.pairs| :: PairFits(system, customer, d.pairs[i]))
    && Counts(d.pairs, d.summary)
    && d.summary.totalDelta == Round4(SumDeltas(d.pairs))
    && (d.summary.hasConflict <==> 0 < d.summary.overReported + d.summary.underReported)
  }

  // --- the engine -------------------------------------------------------------------

  method Aggregate(inputs: seq<Input>) returns (totals: map<Key, real>, present: set<Key>)
    ensures totals.Keys == present == Slots(inputs)
    ensures forall k | k in totals :: totals[k] == Total(inputs, k)
  {
    hide Slots, Total;
    totals, present := map[], {};
    var i := 0;
    NoInputs();
    while i < |inputs|
      invariant i <= |inputs|
      invariant totals.Keys == present == Slots(inputs[..i])
      invariant forall k | k in totals :: totals[k] == Total(inputs[..i], k)
    {
      var k := inputs[i].Slot();
      assert inputs[..i + 1] == inputs[..i] + [inputs[i]];
      SlotsGrow(inputs[..i], inputs[i]);
      TotalsGrow(inputs[..i], inputs[i]);
      if k !in totals {
        NothingThere(inputs[..i], k);
      }
      totals := totals[k := (if k in totals then totals[k] else 0.0) + inputs[i].hours];
      present := present + {k};
      i := i + 1;
    }
    assert inputs[..i] == inputs;
  }

  lemma NoInputs()
    ensures Slots([]) == {}
  {
  }

  lemma TotalsGrow(inputs: seq<Input>, e: Input)
    ensures forall k :: Total(inputs + [e], k) == Total(inputs, k) + if k == e.Slot() then e.hours else 0.0
  {
    assert (inputs + [e])[..|inputs|] == inputs;
  }

  lemma SlotsGrow(inputs: seq<Input>, e: Input)
    ensures Slots(inputs + [e]) == Slots(inputs) + {e.Slot()}
  {
    assert e in inputs + [e];
    assert forall x | x in inputs :: x in inputs + [e];
  }

  lemma {:induction false} NothingThere(inputs: seq<Input>, k: Key)
    requires k !in Slots(inputs)
    ensures Total(inputs, k) == 0.0
  {
    if inputs != [] {
      var rest, last := inputs[..|inputs| - 1], inputs[|inputs| - 1];
      assert inputs == rest + [last];
      SlotsGrow(rest, last);
      NothingThere(rest, k);
    }
  }

  // The keys in whatever order the map yields them.
  method ListKeys(keys: set<Key>) returns (list: seq<Key>)
    ensures Members(list) == keys && Distinct(list)
  {
    list := [];
    var left := keys;
    while left != {}
      invariant left <= keys && Members(list) == keys - left && Distinct(list)
      decreases left
    {
      var k :| k in left;
      MembersAppend(list, k);
      assert k !in Members(list);
      list, left := list + [k], left - {k};
    }
  }

  predicate Distinct(list: seq<Key>) {
    forall i, j | 0 <= i < j < |list| :: list[i] != list[j]
  }

  lemma MembersAppend(list: seq<Key>, k: Key)
    ensures Members(list + [k]) == Members(list) + {k}
  {
    assert (list + [k])[|list|] == k;
    assert forall x | x in list :: x in list + [k];
  }

  // Sorting a list of distinct keys.
  method SortKeys(list: seq<Key>) returns (sorted: seq<Key>)
    requires Distinct(list)
    ensures StrictlySorted(sorted) && Members(sorted) == Members(list)
  {
    hide KeyLess;
    sorted := [];
    var i := 0;
    while i < |list|
      invariant i <= |list|
      invariant StrictlySorted(sorted) && Members(sorted) == Members(list[..i])
    {
      assert list[i] !in Members(list[..i]);
      assert list[..i + 1] == list[..i] + [list[i]];
      MembersAppend(list[..i], list[i]);
      sorted := InsertKey(sorted, list[i]);
      i := i + 1;
    }
    assert list[..i] == list;
  }

  method InsertKey(sorted: seq<Key>, k: Key) returns (longer: seq<Key>)
    requires StrictlySorted(sorted) && k !in Members(sorted)
    ensures StrictlySorted(longer) && Members(longer) == Members(sorted) + {k}
  {
    hide KeyLess;
    var at := 0;
    while at < |sorted| && KeyLess(sorted[at], k)
      invariant at <= |sorted| && forall j | 0 <= j < at :: KeyLess(sorted[j], k)
    {
      at := at + 1;
    }
    LaterKeys(sorted, at, k);
    InsertedSorted(sorted, at, k);
    InsertedMembers(sorted, at, k);
    longer := sorted[..at] + ([k] + sorted[at..]);
  }

  lemma KeysTotal(a: Key, b: Key)
    requires a != b
    ensures KeyLess(a, b) != KeyLess(b, a)
  {
    if a.date != b.date {
      LessIsTotal(a.date, b.date);
    } else {
      LessIsTotal(a.device, b.device);
    }
  }

  lemma KeysTransitive(a: Key, b: Key, c: Key)
    requires KeyLess(a, b) && KeyLess(b, c)
    ensures KeyLess(a, c)
  {
    if a.date == b.date == c.date {
      LessTransitive(a.device, b.device, c.device);
    } else if a.date != b.date && b.date != c.date {
      LessTransitive(a.date, b.date, c.date);
      LessIrreflexive(a.date);
      if a.date == c.date {
        LessIsTotal(a.date, b.date);
      }
    }
  }

  lemma KeysIrreflexive(a: Key)
    ensures !KeyLess(a, a)
  {
    LessIrreflexive(a.device);
  }

  lemma LaterKeys(sorted: seq<Key>, at: nat, k: Key)
    requires StrictlySorted(sorted) && at <= |sorted| && k !in Members(sorted)
    requires at < |sorted| ==> !KeyLess(sorted[at], k)
    ensures forall j | at <= j < |sorted| :: KeyLess(k, sorted[j])
  {
    hide KeyLess;
    forall j | at <= j < |sorted|
      ensures KeyLess(k, sorted[j])
    {
      assert sorted[at] in Members(sorted);
      KeysTotal(k, sorted[at]);
      if at < j {
        KeysTransitive(k, sorted[at], sorted[j]);
      }
    }
  }

  lemma InsertedSorted(sorted: seq<Key>, at: nat, k: Key)
    requires StrictlySorted(sorted) && at <= |sorted|
    requires forall j | 0 <= j < at :: KeyLess(sorted[j], k)
    requires forall j | at <= j < |sorted| :: KeyLess(k, sorted[j])
    ensures StrictlySorted(sorted[..at] + ([k] + sorted[at..]))
  {
    hide KeyLess;
    var all := sorted[..at] + ([k] + sorted[at..]);
    forall i, j | 0 <= i < j < |all|
      ensures KeyLess(all[i], all[j])
    {
      if j < at {
        assert all[i] == sorted[i] && all[j] == sorted[j];
      } else if i > at {
        assert all[i] == sorted[i - 1] && all[j] == sorted[j - 1];
      } else if i < at < j {
        assert all[i] == sorted[i] && all[j] == sorted[j - 1];
      }
    }
  }

  lemma InsertedMembers(sorted: seq<Key>, at: nat, k: Key)
    requires at <= |sorted|
    ensures Members(sorted[..at] + ([k] + sorted[at..])) == Members(sorted) + {k}
  {
    assert sorted == sorted[..at] + sorted[at..];
    MembersConcat(sorted[..at], sorted[at..]);
    MembersConcat([k], sorted[at..]);
    MembersConcat(sorted[..at], [k] + sorted[at..]);
    assert Members([k]) == {k};
  }

  lemma MembersConcat(a: seq<Key>, b: seq<Key>)
    ensures Members(a + b) == Members(a) + Members(b)
  {
  }

  method Diff(system: seq<Input>, customer: seq<Input>) returns (d: Comparison)
    ensures IsDiff(system, customer, d)
  {
    hide StrictlySorted, PairFits, Counts, Round4, Counted, KindFits, SumDeltas;
    var sys, sysPresent := Aggregate(system);
    var cust, custPresent := Aggregate(customer);
    var list := ListKeys(sysPresent + custPresent);
    list := SortKeys(list);
    var pairs: seq<Pair> := [];
    var sum := Summary(0, 0, 0, 0, 0, 0.0, false);
    NothingCounted();
    var i := 0;
    while i < |list|
      invariant i <= |list|
      invariant Compared(system, customer, list[..i], pairs, sum)
    {
      var p;
      assert list[i] in Members(list);
      ghost var before := sum;
      p, sum := Compare(list[i], sys, cust, sum);
      FitsFromTotals(system, customer, list[i], sys, cust, p);
      assert list[..i + 1] == list[..i] + [list[i]];
      ComparedNext(system, customer, list[..i], pairs, before, p);
      pairs := pairs + [p];
      i := i + 1;
    }
    assert list[..i] == list;
    d := Comparison(pairs, sum.(totalDelta := Round4(sum.totalDelta)));
    CountsIgnoreTotal(pairs, sum, d.summary.totalDelta);
  }

  // The slots gone through so far, paired and counted.
  ghost predicate Compared(system: seq<Input>, customer: seq<Input>, keys: seq<Key>, pairs: seq<Pair>, sum: Summary) {
    && KeysOf(pairs) == keys
    && (forall j | 0 <= j < |pairs| :: PairFits(system, customer, pairs[j]))
    && Counts(pairs, sum)
    && sum.totalDelta == SumDeltas(pairs)
    && (sum.hasConflict <==> 0 < sum.overReported + sum.underReported)
  }

  lemma NothingCounted()
    ensures Counts([], Summary(0, 0, 0, 0, 0, 0.0, false)) && SumDeltas([]) == 0.0
  {
  }

  lemma CountsIgnoreTotal(pairs: seq<Pair>, s: Summary, total: real)
    requires Counts(pairs, s)
    ensures Counts(pairs, s.(totalDelta := total))
  {
  }

  lemma ComparedNext(system: seq<Input>, customer: seq<Input>, keys: seq<Key>, pairs: seq<Pair>, sum: Summary, p: Pair)
    requires Compared(system, customer, keys, pairs, sum) && PairFits(system, customer, p)
    ensures Compared(system, customer, keys + [p.Slot()], pairs + [p], Counted(sum, p))
  {
    hide PairFits;
    CountOneMore(pairs, p, sum);
  }

  // The loop body: one slot's pair, and the running summary with it counted.
  method Compare(k: Key, sys: map<Key, real>, cust: map<Key, real>, sum: Summary) returns (p: Pair, sum': Summary)
    requires k in sys || k in cust
    ensures p.Slot() == k
    ensures p.systemHours == (if k in sys then sys[k] else 0.0) && p.customerHours == (if k in cust then cust[k] else 0.0)
    ensures p.delta == p.customerHours - p.systemHours && KindFits(p, k in sys, k in cust)
    ensures sum' == Counted(sum, p)
  {
    var s := if k in sys then sys[k] else 0.0;
    var c := if k in cust then cust[k] else 0.0;
    sum' := sum;
    if k !in sys {
      p := Pair(k.device, k.date, s, c, c, CustomerOnly);
      sum' := sum'.(customerOnly := sum'.customerOnly + 1);
    } else if k !in cust {
      p := Pair(k.device, k.date, s, c, -s, SystemOnly);
      sum' := sum'.(systemOnly := sum'.systemOnly + 1);
    } else if c - s == 0.0 {
      p := Pair(k.device, k.date, s, c, c - s, Matched);
      sum' := sum'.(matched := sum'.matched + 1);
    } else if c - s > 0.0 {
      p := Pair(k.device, k.date, s, c, c - s, OverReported);
      sum' := sum'.(overReported := sum'.overReported + 1, hasConflict := true);
    } else {
      p := Pair(k.device, k.date, s, c, c - s, UnderReported);
      sum' := sum'.(underReported := sum'.underReported + 1, hasConflict := true);
    }
    sum' := sum'.(totalDelta := sum'.totalDelta + p.delta);
  }

  function Counted(s: Summary, p: Pair): Summary {
    Summary(
      s.matched + (if p.kind == Matched then 1 else 0),
      s.overReported + (if p.kind == OverReported then 1 else 0),
      s.underReported + (if p.kind == UnderReported then 1 else 0),
      s.systemOnly + (if p.kind == SystemOnly then 1 else 0),
      s.customerOnly + (if p.kind == CustomerOnly then 1 else 0),
      s.totalDelta + p.delta,
      s.hasConflict || p.kind == OverReported || p.kind == UnderReported)
  }

  lemma FitsFromTotals(system: seq<Input>, customer: seq<Input>, k: Key, sys: map<Key, real>, cust: map<Key, real>, p: Pair)
    requires sys.Keys == Slots(system) && forall x | x in sys :: sys[x] == Total(system, x)
    requires cust.Keys == Slots(customer) && forall x | x in cust :: cust[x] == Total(customer, x)
    requires p.Slot() == k && p.delta == p.customerHours - p.systemHours && KindFits(p, k in sys, k in cust)
    requires p.systemHours == (if k in sys then sys[k] else 0.0) && p.customerHours == (if k in cust then cust[k] else 0.0)
    ensures PairFits(system, customer, p)
  {
    hide KindFits;
    if k !in sys {
      NothingThere(system, k);
    }
    if k !in cust {
      NothingThere(customer, k);
    }
  }

  lemma CountOneMore(pairs: seq<Pair>, p: Pair, s: Summary)
    requires Counts(pairs, s)
    ensures Counts(pairs + [p], Counted(s, p))
    ensures SumDeltas(pairs + [p]) == SumDeltas(pairs) + p.delta
  {
    assert (pairs + [p])[..|pairs|] == pairs;
  }
}
