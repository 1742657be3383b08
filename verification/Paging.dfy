// Offset paging on a fixed listing: the clamped page, the loops that scan a
// whole listing page by page, and the links a client follows.
module Paging {
  import opened Common
  import Window

  const DEFAULT_PAGE_SIZE := 50
  const MAX_PAGE_SIZE := 200

  datatype Page = Page(offset: int, size: int)

  // A request already in range is taken as it is. A missing size is the default,
  // a larger one the maximum.
  function Normalize(p: Page): (q: Page)
    ensures 1 <= q.size <= 200 && 0 <= q.offset
    ensures 1 <= p.size <= 200 && 0 <= p.offset <==> q == p
    ensures (p.size <= 0 ==> q.size == 50) && (p.size > 200 ==> q.size == 200) && (1 <= p.size <= 200 ==> q.size == p.size)
    ensures p.offset < 0 ==> q.offset == 0
    ensures 0 <= p.offset ==> q.offset == p.offset
  {
    var size := if p.size <= 0 then DEFAULT_PAGE_SIZE else Min(p.size, MAX_PAGE_SIZE);
    Page(if p.offset < 0 then 0 else p.offset, size)
  }

  // The rows from offset on, at most size of them.
  function Cut<T>(rows: seq<T>, offset: nat, size: nat): (cut: seq<T>)
    ensures |rows| <= offset ==> cut == []
    ensures offset < |rows| ==> |cut| == Min(size, |rows| - offset)
    ensures forall i | 0 <= i < |cut| :: offset + i < |rows| && cut[i] == rows[offset + i]
  {
    rows[Min(offset, |rows|)..Min(offset + size, |rows|)]
  }

  // The count query and the bounded list query, drained row by row.
  method Paginated<T>(rows: seq<T>, page: Page) returns (items: seq<T>, total: nat)
    ensures items == Cut(rows, Normalize(page).offset, Normalize(page).size)
    ensures total == |rows|
  {
    var q := Normalize(page);
    total := |rows|;
    items := [];
    var next := Min(q.offset, |rows|);
    while next < |rows| && |items| < q.size
      invariant next <= |rows| && |items| <= q.size
      invariant Min(q.offset, |rows|) + |items| == next
      invariant items == rows[Min(q.offset, |rows|)..next]
    {
      items := items + [rows[next]];
      next := next + 1;
    }
  }

  function NextPage(offset: int, returned: int, total: int): int {
    if offset + returned >= total then 0 else offset + returned
  }

  // --- stale manual reviews ---------------------------------------------------------

  datatype Waiting = Waiting(id: Id, createdAt: int)

  predicate Stale(m: Waiting, windowHours: int, now: int) {
    Window.Expired(m.createdAt, windowHours, now)
  }

  // The unpaged answer.
  function StaleRows(pending: seq<Waiting>, windowHours: int, now: int): (stale: seq<Waiting>)
    ensures |stale| <= |pending|
  {
    if pending == [] then []
    else
      var last := pending[|pending| - 1];
      StaleRows(pending[..|pending| - 1], windowHours, now) + if Stale(last, windowHours, now) then [last] else []
  }

  lemma {:induction false} StaleRowsConcat(a: seq<Waiting>, b: seq<Waiting>, windowHours: int, now: int)
    ensures StaleRows(a + b, windowHours, now) == StaleRows(a, windowHours, now) + StaleRows(b, windowHours, now)
  {
    if b == [] {
      assert a + b == a;
    } else {
      var front, last := b[..|b| - 1], b[|b| - 1];
      assert (a + b)[..|a + b| - 1] == a + front;
      StaleRowsConcat(a, front, windowHours, now);
    }
  }

  // A waiting row is in the answer, at its place, exactly when more than the window
  // has passed since it was opened.
  lemma StaleExactly(a: seq<Waiting>, m: Waiting, b: seq<Waiting>, windowHours: int, now: int)
    ensures StaleRows([], windowHours, now) == []
    ensures StaleRows(a + [m] + b, windowHours, now)
            == StaleRows(a, windowHours, now)
               + (if now - m.createdAt > Wrap64(windowHours * 3_600_000_000_000) then [m] else [])
               + StaleRows(b, windowHours, now)
  {
    StaleRowsConcat(a + [m], b, windowHours, now);
    StaleRowsConcat(a, [m], windowHours, now);
    assert StaleRows([m], windowHours, now) == if Stale(m, windowHours, now) then [m] else [] by {
      assert [m][..0] == [];
    }
  }

  // The in-loop filter on one page of rows.
  method AppendStale(stale: seq<Waiting>, items: seq<Waiting>, windowHours: int, now: int) returns (longer: seq<Waiting>)
    ensures longer == stale + StaleRows(items, windowHours, now)
  {
    longer := stale;
    var i := 0;
    while i < |items|
      invariant i <= |items| && longer == stale + StaleRows(items[..i], windowHours, now)
    {
      assert items[..i + 1][..i] == items[..i];
      if Stale(items[i], windowHours, now) {
        longer := longer + [items[i]];
      }
      i := i + 1;
    }
    assert items[..i] == items;
  }

  // Scanning every pending row page by page.
  method ScanStale(pending: seq<Waiting>, windowHours: int, now: int) returns (stale: seq<Waiting>)
    ensures stale == StaleRows(pending, windowHours, now)
  {
    stale := [];
    var scan := Page(0, MAX_PAGE_SIZE);
    while true
      invariant scan.size == MAX_PAGE_SIZE && 0 <= scan.offset <= |pending|
      invariant stale == StaleRows(pending[..scan.offset], windowHours, now)
      decreases |pending| - scan.offset
    {
      var items, total := Paginated(pending, scan);
      assert pending[..scan.offset] + items == pending[..scan.offset + |items|];
      StaleRowsConcat(pending[..scan.offset], items, windowHours, now);
      stale := AppendStale(stale, items, windowHours, now);
      if |items| < scan.size || scan.offset + |items| >= total {
        assert pending[..scan.offset + |items|] == pending;
        break;
      }
      scan := scan.(offset := scan.offset + |items|);
    }
  }

  // Slicing out of range panics.
  datatype Answer = Panic | Listed(items: seq<Waiting>, offset: int, size: nat, total: nat, next: int)

  // The page of the stale rows, the window being the configured one unless the
  // request names hours. The end of the page is a 64-bit sum, so it fails
  // exactly for offsets within a page of the largest integer.
  method ListStaleManuals(pending: seq<Waiting>, olderThanHours: int, configured: int, now: int, page: Page)
    returns (r: Answer)
    requires |pending| < TWO_63 - MAX_PAGE_SIZE && page.offset < TWO_63
    ensures r.Panic? <==> TWO_63 <= Normalize(page).offset + Normalize(page).size
    ensures r.Listed? ==>
              var stale, q := StaleRows(pending, if 0 < olderThanHours then olderThanHours else configured, now), Normalize(page);
              && r.items == Cut(stale, q.offset, q.size)
              && r.offset == q.offset && r.size == |r.items| && r.total == |stale|
              && r.next == NextPage(q.offset, |r.items|, |stale|)
  {
    hide StaleRows, Stale;
    var q := Normalize(page);
    var windowHours := olderThanHours;
    if windowHours <= 0 {
      windowHours := configured;
    }
    var stale := ScanStale(pending, windowHours, now);
    var start, end := q.offset, Wrap64(q.offset + q.size);
    if start > |stale| {
      start := |stale|;
    }
    if end > |stale| {
      end := |stale|;
    }
    if !(0 <= start <= end <= |stale|) {
      return Panic;
    }
    var items := stale[start..end];
    return Listed(items, q.offset, |items|, |stale|, NextPage(q.offset, |items|, |stale|));
  }

  // A client that starts at offset 0 and follows Next until it is 0, with any
  // page size, sees every stale row exactly once and in order.
  method FollowNext(pending: seq<Waiting>, olderThanHours: int, configured: int, now: int, size: int)
    returns (seen: seq<Waiting>)
    requires |pending| < TWO_63 - 2 * MAX_PAGE_SIZE
    ensures seen == StaleRows(pending, if 0 < olderThanHours then olderThanHours else configured, now)
  {
    ghost var stale := StaleRows(pending, if 0 < olderThanHours then olderThanHours else configured, now);
    seen := [];
    var offset := 0;
    while true
      invariant 0 <= offset <= |stale| && seen == stale[..offset]
      decreases |stale| - offset
    {
      var r := ListStaleManuals(pending, olderThanHours, configured, now, Page(offset, size));
      seen := seen + r.items;
      if r.next == 0 {
        break;
      }
      offset := r.next;
    }
  }
}
