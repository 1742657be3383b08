// What a diff is worth: it does not depend on the order of its inputs, its
// deltas add up, its counts partition the days, and its sides are symmetric.
module ReconcileLaws {
  import opened TimeText
  import opened Reconcile

  // --- one answer per pair of inputs ------------------------------------------------

  lemma {:induction false} SortedIsUnique(a: seq<Key>, b: seq<Key>)
    requires StrictlySorted(a) && StrictlySorted(b) && Members(a) == Members(b)
    ensures a == b
  {
    hide KeyLess;
    NoMembers(a);
    NoMembers(b);
    if a != [] {
      var x := a[|a| - 1];
      assert x in Members(a);
      var y := b[|b| - 1];
      assert y in Members(b);
      LastIsGreatest(a, y);
      LastIsGreatest(b, x);
      if x != y {
        KeysTotal(x, y);
      }
      FrontMembers(a);
      FrontMembers(b);
      SortedIsUnique(a[..|a| - 1], b[..|b| - 1]);
      assert a == a[..|a| - 1] + [x] && b == b[..|b| - 1] + [y];
    }
  }

  lemma NoMembers(a: seq<Key>)
    ensures Members(a) == {} <==> a == []
  {
    if a != [] {
      assert a[0] in Members(a);
    }
  }

  lemma LastIsGreatest(a: seq<Key>, k: Key)
    requires StrictlySorted(a) && k in Members(a)
    ensures a != [] && (k == a[|a| - 1] || KeyLess(k, a[|a| - 1]))
  {
    hide KeyLess;
    var i :| 0 <= i < |a| && a[i] == k;
  }

  lemma FrontMembers(a: seq<Key>)
    requires StrictlySorted(a) && a != []
    ensures Members(a[..|a| - 1]) == Members(a) - {a[|a| - 1]}
  {
    hide KeyLess;
    var last := a[|a| - 1];
    assert a == a[..|a| - 1] + [last];
    MembersAppend(a[..|a| - 1], last);
    SortedIsDistinct(a);
    assert last !in a[..|a| - 1];
  }

  function Without(inputs: seq<Input>, i: nat): seq<Input>
    requires i < |inputs|
  {
    inputs[..i] + inputs[i + 1..]
  }

  lemma {:induction false} TotalWithout(inputs: seq<Input>, i: nat, k: Key)
    requires i < |inputs|
    ensures Total(inputs, k) == Total(Without(inputs, i), k) + if inputs[i].Slot() == k then inputs[i].hours else 0.0
  {
    if i < |inputs| - 1 {
      var front, last := inputs[..|inputs| - 1], inputs[|inputs| - 1];
      TotalWithout(front, i, k);
      assert Without(inputs, i)[..|inputs| - 2] == Without(front, i);
      assert Without(inputs, i)[|inputs| - 2] == last;
    } else {
      assert Without(inputs, i) == inputs[..|inputs| - 1];
    }
  }

  // Where the last element of a stands in its permutation b.
  lemma Counterpart(a: seq<Input>, b: seq<Input>) returns (i: nat)
    requires multiset(a) == multiset(b) && a != []
    ensures i < |b| && b[i] == a[|a| - 1]
    ensures multiset(Without(b, i)) == multiset(a[..|a| - 1])
  {
    var front, last := a[..|a| - 1], a[|a| - 1];
    assert a == front + [last];
    assert multiset(a) == multiset(front) + multiset{last};
    assert last in multiset(b);
    i :| 0 <= i < |b| && b[i] == last;
    WithoutOne(b, i);
    OneLess(multiset(front), multiset(Without(b, i)), last);
  }

  lemma WithoutOne(b: seq<Input>, i: nat)
    requires i < |b|
    ensures multiset(b) == multiset(Without(b, i)) + multiset{b[i]}
  {
    assert b == b[..i] + ([b[i]] + b[i + 1..]);
  }

  lemma OneLess(m: multiset<Input>, n: multiset<Input>, e: Input)
    requires m + multiset{e} == n + multiset{e}
    ensures n == m
  {
    assert m == m + multiset{e} - multiset{e};
    assert n == n + multiset{e} - multiset{e};
  }

  lemma {:induction false} TotalIgnoresOrder(a: seq<Input>, b: seq<Input>, k: Key)
    requires multiset(a) == multiset(b)
    ensures Total(a, k) == Total(b, k)
    decreases |a|
  {
    hide Without;
    assert |multiset(a)| == |a| && |multiset(b)| == |b|;
    if a != [] {
      var i := Counterpart(a, b);
      TotalWithout(b, i, k);
      TotalIgnoresOrder(a[..|a| - 1], Without(b, i), k);
    }
  }

  lemma SlotsIgnoreOrder(a: seq<Input>, b: seq<Input>)
    requires multiset(a) == multiset(b)
    ensures Slots(a) == Slots(b)
  {
    assert forall e :: e in a <==> e in multiset(a);
    assert forall e :: e in b <==> e in multiset(b);
  }

  lemma PairDetermined(s1: seq<Input>, c1: seq<Input>, s2: seq<Input>, c2: seq<Input>, p: Pair, q: Pair)
    requires multiset(s1) == multiset(s2) && multiset(c1) == multiset(c2)
    requires PairFits(s1, c1, p) && PairFits(s2, c2, q) && p.Slot() == q.Slot()
    ensures p == q
  {
    hide Slots, Total;
    TotalIgnoresOrder(s1, s2, p.Slot());
    TotalIgnoresOrder(c1, c2, p.Slot());
    SlotsIgnoreOrder(s1, s2);
    SlotsIgnoreOrder(c1, c2);
  }

  // Whatever order the inputs come in and the maps are walked in, the diff is
  // the same.
  lemma DiffIgnoresOrder(s1: seq<Input>, c1: seq<Input>, s2: seq<Input>, c2: seq<Input>, d: Comparison, e: Comparison)
    requires multiset(s1) == multiset(s2) && multiset(c1) == multiset(c2)
    requires IsDiff(s1, c1, d) && IsDiff(s2, c2, e)
    ensures d == e
  {
    hide Slots, PairFits, StrictlySorted, CountKind, SumDeltas, Round4, Members;
    SlotsIgnoreOrder(s1, s2);
    SlotsIgnoreOrder(c1, c2);
    SortedIsUnique(KeysOf(d.pairs), KeysOf(e.pairs));
    assert |d.pairs| == |KeysOf(d.pairs)| == |e.pairs|;
    forall i | 0 <= i < |d.pairs|
      ensures d.pairs[i] == e.pairs[i]
    {
      assert KeysOf(d.pairs)[i] == KeysOf(e.pairs)[i];
      PairDetermined(s1, c1, s2, c2, d.pairs[i], e.pairs[i]);
    }
    assert d.pairs == e.pairs;
  }

  // --- conservation ---------------------------------------------------------------

  // The day totals over a list of days.
  function SumTotals(inputs: seq<Input>, keys: seq<Key>): real {
    if keys == [] then 0.0 else SumTotals(inputs, keys[..|keys| - 1]) + Total(inputs, keys[|keys| - 1])
  }

  lemma {:induction false} NoInputsNoTotals(keys: seq<Key>)
    ensures SumTotals([], keys) == 0.0
  {
    if keys != [] {
      NoInputsNoTotals(keys[..|keys| - 1]);
    }
  }

  // One more input counts once when its day is listed once.
  lemma {:induction false} SumTotalsGrow(inputs: seq<Input>, e: Input, keys: seq<Key>)
    requires Distinct(keys)
    ensures SumTotals(inputs + [e], keys) == SumTotals(inputs, keys) + if e.Slot() in Members(keys) then e.hours else 0.0
  {
    if keys != [] {
      var front, last := keys[..|keys| - 1], keys[|keys| - 1];
      assert keys == front + [last];
      MembersAppend(front, last);
      assert last !in Members(front);
      SumTotalsGrow(inputs, e, front);
      TotalsGrow(inputs, e);
    }
  }

  // Splitting the hours by day loses none and counts none twice.
  lemma {:induction false} TotalsAddUp(inputs: seq<Input>, keys: seq<Key>)
    requires Distinct(keys) && Slots(inputs) <= Members(keys)
    ensures SumTotals(inputs, keys) == Sum(inputs)
  {
    if inputs == [] {
      NoInputsNoTotals(keys);
    } else {
      var front, last := inputs[..|inputs| - 1], inputs[|inputs| - 1];
      assert inputs == front + [last];
      SlotsGrow(front, last);
      TotalsAddUp(front, keys);
      SumTotalsGrow(front, last, keys);
    }
  }

  lemma {:induction false} DeltasAreTotals(system: seq<Input>, customer: seq<Input>, pairs: seq<Pair>)
    requires forall i | 0 <= i < |pairs| :: PairFits(system, customer, pairs[i])
    ensures SumDeltas(pairs) == SumTotals(customer, KeysOf(pairs)) - SumTotals(system, KeysOf(pairs))
  {
    hide Slots, Total, KindFits;
    if pairs != [] {
      DeltasAreTotals(system, customer, pairs[..|pairs| - 1]);
      assert KeysOf(pairs)[..|pairs| - 1] == KeysOf(pairs[..|pairs| - 1]);
    }
  }

  lemma SortedIsDistinct(keys: seq<Key>)
    requires StrictlySorted(keys)
    ensures Distinct(keys)
  {
    hide KeyLess;
    forall i, j | 0 <= i < j < |keys|
      ensures keys[i] != keys[j]
    {
      KeysIrreflexive(keys[i]);
      assert KeyLess(keys[i], keys[j]);
    }
  }

  // The deltas sum exactly to the customer's hours minus the system's.
  lemma DeltasConserve(system: seq<Input>, customer: seq<Input>, d: Comparison)
    requires IsDiff(system, customer, d)
    ensures SumDeltas(d.pairs) == Sum(customer) - Sum(system)
  {
    hide PairFits, StrictlySorted, Counts, Slots, Members, Round4;
    SortedIsDistinct(KeysOf(d.pairs));
    DeltasAreTotals(system, customer, d.pairs);
    TotalsAddUp(system, KeysOf(d.pairs));
    TotalsAddUp(customer, KeysOf(d.pairs));
  }

  lemma RoundUpClose(x: real)
    ensures -0.00005 < RoundUp4(x) - x <= 0.00005
  {
    var f := (x * 10000.0 + 0.5).Floor as real;
    assert f <= x * 10000.0 + 0.5 < f + 1.0;
  }

  // The total shown is within half a ten-thousandth of the exact one.
  lemma TotalIsRounded(system: seq<Input>, customer: seq<Input>, d: Comparison)
    requires IsDiff(system, customer, d)
    ensures -0.00005 <= d.summary.totalDelta - (Sum(customer) - Sum(system)) <= 0.00005
    ensures (d.summary.totalDelta * 10000.0).Floor as real == d.summary.totalDelta * 10000.0
  {
    hide PairFits, StrictlySorted, Counts, Slots, Members;
    DeltasConserve(system, customer, d);
    RoundIsClose(SumDeltas(d.pairs));
  }

  // Half a unit is rounded away from zero.
  lemma TiesGoAway(n: nat)
    ensures Round4((n as real + 0.5) / 10000.0) == (n + 1) as real / 10000.0
    ensures Round4(-((n as real + 0.5) / 10000.0)) == -((n + 1) as real / 10000.0)
  {
    WholeFloor(n + 1);
  }

  lemma RoundIsClose(x: real)
    ensures -0.00005 <= Round4(x) - x <= 0.00005
    ensures (Round4(x) * 10000.0).Floor as real == Round4(x) * 10000.0
  {
    hide RoundUp4;
    if x < 0.0 {
      RoundUpClose(-x);
      RoundUpWhole(-x);
    } else {
      RoundUpClose(x);
      RoundUpWhole(x);
    }
  }

  lemma RoundUpWhole(x: real)
    ensures (RoundUp4(x) * 10000.0).Floor as real == RoundUp4(x) * 10000.0
    ensures (-RoundUp4(x) * 10000.0).Floor as real == -RoundUp4(x) * 10000.0
  {
    var n := (x * 10000.0 + 0.5).Floor;
    assert RoundUp4(x) * 10000.0 == n as real;
    WholeFloor(n);
    WholeFloor(-n);
  }

  lemma WholeFloor(n: int)
    ensures (n as real).Floor == n
  {
  }

  // --- counts -------------------------------------------------------------------------

  lemma {:induction false} KindsPartition(pairs: seq<Pair>)
    ensures CountKind(pairs, Matched) + CountKind(pairs, OverReported) + CountKind(pairs, UnderReported)
            + CountKind(pairs, SystemOnly) + CountKind(pairs, CustomerOnly) == |pairs|
  {
    if pairs != [] {
      KindsPartition(pairs[..|pairs| - 1]);
    }
  }

  function OfKind(pairs: seq<Pair>, kind: PairKind): set<nat> {
    set i: nat | i < |pairs| && pairs[i].kind == kind
  }

  lemma {:induction false} CountIsSize(pairs: seq<Pair>, kind: PairKind)
    ensures CountKind(pairs, kind) == |OfKind(pairs, kind)|
  {
    if pairs == [] {
      assert OfKind(pairs, kind) == {};
    } else {
      var n := |pairs| - 1;
      CountIsSize(pairs[..n], kind);
      OfKindGrows(pairs, kind);
    }
  }

  lemma OfKindGrows(pairs: seq<Pair>, kind: PairKind)
    requires pairs != []
    ensures var n := |pairs| - 1;
            && n !in OfKind(pairs[..n], kind)
            && OfKind(pairs, kind) == OfKind(pairs[..n], kind) + if pairs[n].kind == kind then {n} else {}
  {
    var n := |pairs| - 1;
    forall i: nat | i < n
      ensures i in OfKind(pairs, kind) <==> i in OfKind(pairs[..n], kind)
    {
      assert pairs[..n][i] == pairs[i];
    }
  }

  // Each count of the summary is the number of pairs of its kind.
  lemma SummaryCountsPairs(system: seq<Input>, customer: seq<Input>, d: Comparison)
    requires IsDiff(system, customer, d)
    ensures d.summary.matched == |set i: nat | i < |d.pairs| && d.pairs[i].kind == Matched|
    ensures d.summary.overReported == |set i: nat | i < |d.pairs| && d.pairs[i].kind == OverReported|
    ensures d.summary.underReported == |set i: nat | i < |d.pairs| && d.pairs[i].kind == UnderReported|
    ensures d.summary.systemOnly == |set i: nat | i < |d.pairs| && d.pairs[i].kind == SystemOnly|
    ensures d.summary.customerOnly == |set i: nat | i < |d.pairs| && d.pairs[i].kind == CustomerOnly|
  {
    CountIsSize(d.pairs, Matched);
    CountIsSize(d.pairs, OverReported);
    CountIsSize(d.pairs, UnderReported);
    CountIsSize(d.pairs, SystemOnly);
    CountIsSize(d.pairs, CustomerOnly);
  }

  lemma {:induction false} CountedIfPresent(pairs: seq<Pair>, kind: PairKind)
    ensures 0 < CountKind(pairs, kind) <==> exists i :: 0 <= i < |pairs| && pairs[i].kind == kind
  {
    if pairs != [] {
      var front := pairs[..|pairs| - 1];
      CountedIfPresent(front, kind);
      assert forall i | 0 <= i < |front| :: front[i] == pairs[i];
    }
  }

  // Each day on either side is counted once, under one kind.
  lemma CountsPartition(system: seq<Input>, customer: seq<Input>, d: Comparison)
    requires IsDiff(system, customer, d)
    ensures d.summary.matched + d.summary.overReported + d.summary.underReported
            + d.summary.systemOnly + d.summary.customerOnly == |Slots(system) + Slots(customer)|
  {
    hide PairFits, StrictlySorted, Slots, Round4, SumDeltas;
    KindsPartition(d.pairs);
    SortedIsDistinct(KeysOf(d.pairs));
    DistinctCount(KeysOf(d.pairs));
  }

  lemma {:induction false} DistinctCount(keys: seq<Key>)
    requires Distinct(keys)
    ensures |Members(keys)| == |keys|
  {
    if keys == [] {
      assert Members(keys) == {};
    } else {
      var front, last := keys[..|keys| - 1], keys[|keys| - 1];
      DistinctCount(front);
      assert keys == front + [last];
      MembersAppend(front, last);
      assert last !in Members(front);
    }
  }

  predicate Disagree(system: seq<Input>, customer: seq<Input>, k: Key) {
    k in Slots(system) && k in Slots(customer) && Total(system, k) != Total(customer, k)
  }

  // A conflict is reported exactly when some day is on both sides with different
  // totals.
  lemma ConflictIsDisagreement(system: seq<Input>, customer: seq<Input>, d: Comparison)
    requires IsDiff(system, customer, d)
    ensures d.summary.hasConflict <==> exists k :: Disagree(system, customer, k)
  {
    hide StrictlySorted, Slots, Round4, SumDeltas, CountKind;
    CountedIfPresent(d.pairs, OverReported);
    CountedIfPresent(d.pairs, UnderReported);
    if d.summary.hasConflict {
      var i :| 0 <= i < |d.pairs| && d.pairs[i].kind in {OverReported, UnderReported};
      assert Disagree(system, customer, d.pairs[i].Slot());
    }
    if k :| Disagree(system, customer, k) {
      assert k in Members(KeysOf(d.pairs));
      var i :| 0 <= i < |d.pairs| && KeysOf(d.pairs)[i] == k;
      assert d.pairs[i].kind in {OverReported, UnderReported};
    }
  }

  // --- the two sides --------------------------------------------------------------------

  function Mirrored(kind: PairKind): PairKind {
    match kind
    case Matched => Matched
    case OverReported => UnderReported
    case UnderReported => OverReported
    case SystemOnly => CustomerOnly
    case CustomerOnly => SystemOnly
  }

  predicate MirrorImage(p: Pair, q: Pair) {
    && q.Slot() == p.Slot() && q.systemHours == p.customerHours && q.customerHours == p.systemHours
    && q.delta == -p.delta && q.kind == Mirrored(p.kind)
  }

  lemma {:induction false} MirroredSums(ps: seq<Pair>, qs: seq<Pair>)
    requires |ps| == |qs| && forall i | 0 <= i < |ps| :: MirrorImage(ps[i], qs[i])
    ensures SumDeltas(qs) == -SumDeltas(ps)
    ensures forall kind :: CountKind(qs, Mirrored(kind)) == CountKind(ps, kind)
  {
    if ps != [] {
      MirroredSums(ps[..|ps| - 1], qs[..|qs| - 1]);
    }
  }

  // Swapping the sides negates every delta and the total, swaps over with under
  // and system-only with customer-only, and leaves the rest.
  lemma SwapNegates(system: seq<Input>, customer: seq<Input>, d: Comparison, e: Comparison)
    requires IsDiff(system, customer, d) && IsDiff(customer, system, e)
    ensures |e.pairs| == |d.pairs| && forall i | 0 <= i < |d.pairs| :: MirrorImage(d.pairs[i], e.pairs[i])
    ensures e.summary == Summary(
                           d.summary.matched, d.summary.underReported, d.summary.overReported,
                           d.summary.customerOnly, d.summary.systemOnly, -d.summary.totalDelta, d.summary.hasConflict)
  {
    hide StrictlySorted, Slots, Round4, SumDeltas, CountKind, PairFits, Members, MirrorImage;
    SortedIsUnique(KeysOf(d.pairs), KeysOf(e.pairs));
    assert |d.pairs| == |KeysOf(d.pairs)| == |e.pairs|;
    forall i | 0 <= i < |d.pairs|
      ensures MirrorImage(d.pairs[i], e.pairs[i])
    {
      assert KeysOf(d.pairs)[i] == KeysOf(e.pairs)[i];
      FitsMirrored(system, customer, d.pairs[i], e.pairs[i]);
    }
    MirroredSums(d.pairs, e.pairs);
    RoundIsOdd(SumDeltas(d.pairs));
    MirroredCounts(d.pairs, e.pairs);
  }

  lemma FitsMirrored(system: seq<Input>, customer: seq<Input>, p: Pair, q: Pair)
    requires PairFits(system, customer, p) && PairFits(customer, system, q) && p.Slot() == q.Slot()
    ensures MirrorImage(p, q)
  {
    hide Slots, Total;
  }

  lemma MirroredCounts(ps: seq<Pair>, qs: seq<Pair>)
    requires forall kind :: CountKind(qs, Mirrored(kind)) == CountKind(ps, kind)
    ensures CountKind(qs, Matched) == CountKind(ps, Matched)
    ensures CountKind(qs, OverReported) == CountKind(ps, UnderReported)
    ensures CountKind(qs, UnderReported) == CountKind(ps, OverReported)
    ensures CountKind(qs, SystemOnly) == CountKind(ps, CustomerOnly)
    ensures CountKind(qs, CustomerOnly) == CountKind(ps, SystemOnly)
  {
    hide CountKind;
    assert Mirrored(Matched) == Matched && Mirrored(UnderReported) == OverReported && Mirrored(OverReported) == UnderReported;
    assert Mirrored(CustomerOnly) == SystemOnly && Mirrored(SystemOnly) == CustomerOnly;
  }

  lemma RoundIsOdd(x: real)
    ensures Round4(-x) == -Round4(x)
  {
    if x == 0.0 {
      assert RoundUp4(0.0) == 0.0;
    }
  }
}
