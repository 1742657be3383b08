// The chronological order Backfill replays its inputs in: sort.SliceStable by
// (occurred_at, client_sequence).
module ReplayOrder {
  import opened SyncDb

  function KeyOf(x: Input): (int, int) {
    (x.occurredAt, x.seqNo)
  }

  predicate KeyBefore(a: (int, int), b: (int, int)) {
    a.0 < b.0 || (a.0 == b.0 && a.1 < b.1)
  }

  // An input goes before the first one that is not strictly earlier.
  function Insert(x: Input, s: seq<Input>): seq<Input> {
    if s == [] || !KeyBefore(KeyOf(s[0]), KeyOf(x)) then [x] + s
    else [s[0]] + Insert(x, s[1..])
  }

  function SortStable(s: seq<Input>): seq<Input> {
    if s == [] then [] else Insert(s[0], SortStable(s[1..]))
  }

  predicate Sorted(s: seq<Input>) {
    forall i, j | 0 <= i < j < |s| :: !KeyBefore(KeyOf(s[j]), KeyOf(s[i]))
  }

  // The inputs with one key, in the order they appear.
  function Select(s: seq<Input>, k: (int, int)): seq<Input> {
    if s == [] then [] else (if KeyOf(s[0]) == k then [s[0]] else []) + Select(s[1..], k)
  }

  // t is what a stable sort of s must be.
  ghost predicate StableSortOf(s: seq<Input>, t: seq<Input>) {
    Sorted(t) && multiset(t) == multiset(s) && forall k :: Select(t, k) == Select(s, k)
  }

  lemma {:induction false} InsertSorts(x: Input, s: seq<Input>)
    requires Sorted(s)
    ensures Sorted(Insert(x, s)) && multiset(Insert(x, s)) == multiset{x} + multiset(s)
  {
    if s == [] || !KeyBefore(KeyOf(s[0]), KeyOf(x)) {
    } else {
      InsertSorts(x, s[1..]);
      assert s == [s[0]] + s[1..];
      var rest := Insert(x, s[1..]);
      forall j | 0 <= j < |rest|
        ensures !KeyBefore(KeyOf(rest[j]), KeyOf(s[0]))
      {
        assert rest[j] in multiset(rest);
        assert rest[j] == x || rest[j] in s[1..];
      }
    }
  }

  lemma {:induction false} InsertSelects(x: Input, s: seq<Input>, k: (int, int))
    requires Sorted(s)
    ensures Select(Insert(x, s), k) == (if KeyOf(x) == k then [x] else []) + Select(s, k)
  {
    if s == [] || !KeyBefore(KeyOf(s[0]), KeyOf(x)) {
      assert ([x] + s)[1..] == s;
    } else {
      InsertSelects(x, s[1..], k);
      assert ([s[0]] + Insert(x, s[1..]))[1..] == Insert(x, s[1..]);
    }
  }

  lemma {:induction false} SortStableIsStable(s: seq<Input>)
    ensures StableSortOf(s, SortStable(s))
  {
    if s != [] {
      SortStableIsStable(s[1..]);
      InsertSorts(s[0], SortStable(s[1..]));
      assert s == [s[0]] + s[1..];
      forall k
        ensures Select(SortStable(s), k) == Select(s, k)
      {
        InsertSelects(s[0], SortStable(s[1..]), k);
      }
    }
  }

  lemma SortKeepsLength(s: seq<Input>)
    ensures |SortStable(s)| == |s|
  {
    SortStableIsStable(s);
    assert |multiset(SortStable(s))| == |multiset(s)|;
  }

  lemma {:induction false} SelectHas(s: seq<Input>, i: nat)
    requires i < |s|
    ensures Select(s, KeyOf(s[i])) != []
  {
    if i > 0 {
      SelectHas(s[1..], i - 1);
    }
  }

  lemma {:induction false} SelectFinds(s: seq<Input>, k: (int, int))
    requires Select(s, k) != []
    ensures exists i :: 0 <= i < |s| && KeyOf(s[i]) == k
  {
    if KeyOf(s[0]) != k {
      SelectFinds(s[1..], k);
    }
  }

  // No other sequence is sorted with equal keys kept in order.
  lemma {:induction false} StableSortUnique(s: seq<Input>, t: seq<Input>)
    requires Sorted(s) && Sorted(t) && forall k :: Select(s, k) == Select(t, k)
    ensures s == t
  {
    if s == [] {
      var k := if t == [] then (0, 0) else KeyOf(t[0]);
      assert Select(t, k) == Select(s, k) == [];
    } else {
      SelectHas(s, 0);
      SelectFinds(t, KeyOf(s[0]));
      SelectHas(t, 0);
      SelectFinds(s, KeyOf(t[0]));
      assert KeyOf(s[0]) == KeyOf(t[0]);
      assert Select(s, KeyOf(s[0]))[0] == s[0] && Select(t, KeyOf(s[0]))[0] == t[0];
      forall k
        ensures Select(s[1..], k) == Select(t[1..], k)
      {
        assert Select(s, k) == Select(t, k);
        if KeyOf(s[0]) == k {
          assert Select(s[1..], k) == Select(s, k)[1..] && Select(t[1..], k) == Select(t, k)[1..];
        } else {
          assert Select(s[1..], k) == Select(s, k) && Select(t[1..], k) == Select(t, k);
        }
      }
      StableSortUnique(s[1..], t[1..]);
      assert s == [s[0]] + s[1..] && t == [t[0]] + t[1..];
    }
  }

  // What the order means: by time taken, and by sequence number at one time.
  lemma {:induction false} ReplayIsChronological(s: seq<Input>, i: nat, j: nat)
    requires i < j < |SortStable(s)|
    ensures var t := SortStable(s);
            t[i].occurredAt < t[j].occurredAt || (t[i].occurredAt == t[j].occurredAt && t[i].seqNo <= t[j].seqNo)
  {
    SortStableIsStable(s);
  }

  // So the replay order is fixed by the submission alone.
  lemma ReplayOrderIsDetermined(s: seq<Input>, t: seq<Input>)
    ensures StableSortOf(s, t) <==> t == SortStable(s)
  {
    SortStableIsStable(s);
    if StableSortOf(s, t) {
      StableSortUnique(t, SortStable(s));
    }
  }
}
