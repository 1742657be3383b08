// The diff of an order over a period: settled records page by page on one side,
// the customer's hours for the order's devices on the other.
module PeriodDiff {
  import opened Common
  import opened Status
  import opened TimeText
  import opened Paging
  import Reconcile

  datatype Row = Row(orderId: Id, device: string, occurredAt: int, hours: real, status: RecordStatus)

  datatype Report = Report(device: string, date: string, hours: real)

  predicate IsReconcilable(s: RecordStatus) {
    match s
    case Accepted => true
    case Verified => true
    case Adjudicated => true
    case _ => false
  }

  // A record that counts goes on counting until it is revoked.
  lemma SettledUntilRevoked(src: RecordStatus, dst: RecordStatus)
    requires RecordEdge(src, dst) && IsReconcilable(src)
    ensures IsReconcilable(dst) || dst == Revoked
  {
    match src {
      case Accepted =>
      case Verified =>
      case _ =>
    }
  }

  // The SQL filter on occurred_at, as text; a zero bound is no bound.
  predicate InPeriod(t: int, start: Option<int>, end: Option<int>) {
    && (start.Some? ==> !TextBefore(t, start.value))
    && (end.Some? ==> TextBefore(t, end.value))
  }

  function Selected(rows: seq<Row>, orderId: Id, start: Option<int>, end: Option<int>): seq<Row> {
    if rows == [] then []
    else
      var last := rows[|rows| - 1];
      Selected(rows[..|rows| - 1], orderId, start, end)
      + if last.orderId == orderId && InPeriod(last.occurredAt, start, end) then [last] else []
  }

  function InputOf(r: Row): Reconcile.Input {
    Reconcile.Input(r.device, DateText(DayOf(r.occurredAt)), r.hours)
  }

  function Settled(rows: seq<Row>): seq<Reconcile.Input> {
    if rows == [] then []
    else
      var last := rows[|rows| - 1];
      Settled(rows[..|rows| - 1]) + if IsReconcilable(last.status) then [InputOf(last)] else []
  }

  lemma {:induction false} SettledConcat(a: seq<Row>, b: seq<Row>)
    ensures Settled(a + b) == Settled(a) + Settled(b)
  {
    if b == [] {
      assert a + b == a;
    } else {
      assert (a + b)[..|a + b| - 1] == a + b[..|b| - 1];
      SettledConcat(a, b[..|b| - 1]);
    }
  }

  method AppendSettled(system: seq<Reconcile.Input>, items: seq<Row>) returns (longer: seq<Reconcile.Input>)
    ensures longer == system + Settled(items)
  {
    hide InputOf;
    longer := system;
    var i := 0;
    while i < |items|
      invariant i <= |items| && longer == system + Settled(items[..i])
    {
      assert items[..i + 1][..i] == items[..i];
      if IsReconcilable(items[i].status) {
        longer := longer + [InputOf(items[i])];
      }
      i := i + 1;
    }
    assert items[..i] == items;
  }

  // The paging loop over the selected rows.
  method CollectSystem(selected: seq<Row>) returns (system: seq<Reconcile.Input>)
    ensures system == Settled(selected)
  {
    hide Settled;
    system := [];
    var scan := Page(0, MAX_PAGE_SIZE);
    NothingSettled();
    while true
      invariant scan.size == MAX_PAGE_SIZE && 0 <= scan.offset <= |selected|
      invariant system == Settled(selected[..scan.offset])
      decreases |selected| - scan.offset
    {
      var items, total := Paginated(selected, scan);
      assert selected[..scan.offset] + items == selected[..scan.offset + |items|];
      SettledConcat(selected[..scan.offset], items);
      system := AppendSettled(system, items);
      if |items| < scan.size || scan.offset + |items| >= total {
        assert selected[..scan.offset + |items|] == selected;
        break;
      }
      scan := scan.(offset := scan.offset + |items|);
    }
  }

  lemma NothingSettled()
    ensures Settled([]) == []
  {
  }

  // The customer's dates are compared as text, both bounds included.
  predicate DateInPeriod(date: string, start: Option<int>, end: Option<int>) {
    && (start.Some? ==> !TextLess(date, DateText(DayOf(start.value))))
    && (end.Some? ==> !TextLess(DateText(DayOf(end.value)), date))
  }

  function ReportedBy(reports: seq<Report>, device: string, start: Option<int>, end: Option<int>): seq<Reconcile.Input> {
    if reports == [] then []
    else
      var last := reports[|reports| - 1];
      ReportedBy(reports[..|reports| - 1], device, start, end)
      + if last.device == device && DateInPeriod(last.date, start, end)
        then [Reconcile.Input(last.device, last.date, last.hours)] else []
  }

  function Reported(reports: seq<Report>, devices: seq<string>, start: Option<int>, end: Option<int>): seq<Reconcile.Input> {
    if devices == [] then []
    else
      Reported(reports, devices[..|devices| - 1], start, end)
      + ReportedBy(reports, devices[|devices| - 1], start, end)
  }

  method CollectCustomer(reports: seq<Report>, devices: seq<string>, start: Option<int>, end: Option<int>)
    returns (customer: seq<Reconcile.Input>)
    ensures customer == Reported(reports, devices, start, end)
  {
    hide ReportedBy;
    customer := [];
    var i := 0;
    while i < |devices|
      invariant i <= |devices| && customer == Reported(reports, devices[..i], start, end)
    {
      assert devices[..i + 1][..i] == devices[..i];
      customer := AppendReports(customer, reports, devices[i], start, end);
      i := i + 1;
    }
    assert devices[..i] == devices;
  }

  method AppendReports(
    customer: seq<Reconcile.Input>, reports: seq<Report>, device: string, start: Option<int>, end: Option<int>)
    returns (longer: seq<Reconcile.Input>)
    ensures longer == customer + ReportedBy(reports, device, start, end)
  {
    hide DateInPeriod;
    longer := customer;
    var j := 0;
    while j < |reports|
      invariant j <= |reports| && longer == customer + ReportedBy(reports[..j], device, start, end)
    {
      assert reports[..j + 1][..j] == reports[..j];
      if reports[j].device == device && DateInPeriod(reports[j].date, start, end) {
        longer := longer + [Reconcile.Input(reports[j].device, reports[j].date, reports[j].hours)];
      }
      j := j + 1;
    }
    assert reports[..j] == reports;
  }

  // --- what a day of the answer is, told from the rows and the reports -----------------

  // The row counts for the device and date: it is of the order and in the period,
  // was taken by the device on that UTC date, and is settled.
  predicate CountsOn(r: Row, orderId: Id, start: Option<int>, end: Option<int>, device: string, date: string) {
    && r.orderId == orderId && InPeriod(r.occurredAt, start, end)
    && r.device == device && DateText(r.occurredAt / DAY) == date
    && (r.status == Accepted || r.status == Verified || r.status == Adjudicated)
  }

  // A settled record is one that is neither open nor revoked.
  lemma SettledStatuses(s: RecordStatus)
    ensures s == Accepted || s == Verified || s == Adjudicated
            <==> s != Pending && s != Conflict && s != AwaitingReview && s != Revoked
    ensures IsReconcilable(s) <==> s == Accepted || s == Verified || s == Adjudicated
  {
    match s {
      case Accepted =>
      case _ =>
    }
  }

  function HoursOn(rows: seq<Row>, orderId: Id, start: Option<int>, end: Option<int>, device: string, date: string): real {
    if rows == [] then 0.0
    else
      var last := rows[|rows| - 1];
      HoursOn(rows[..|rows| - 1], orderId, start, end, device, date)
      + if CountsOn(last, orderId, start, end, device, date) then last.hours else 0.0
  }

  function ReportsOn(reports: seq<Report>, device: string, date: string): real {
    if reports == [] then 0.0
    else
      var last := reports[|reports| - 1];
      ReportsOn(reports[..|reports| - 1], device, date)
      + if last.device == device && last.date == date then last.hours else 0.0
  }

  predicate ReportsDay(reports: seq<Report>, device: string, date: string) {
    exists x :: x in reports && x.device == device && x.date == date
  }

  predicate OnSystem(rows: seq<Row>, orderId: Id, start: Option<int>, end: Option<int>, device: string, date: string) {
    exists r :: r in rows && CountsOn(r, orderId, start, end, device, date)
  }

  predicate OnCustomer(
    reports: seq<Report>, devices: seq<string>, start: Option<int>, end: Option<int>, device: string, date: string)
  {
    device in devices && DateInPeriod(date, start, end) && ReportsDay(reports, device, date)
  }

  // Each day of either side has one pair, by date and then device, with the settled hours of the one and
  // the reported hours of the other; a device listed twice is reported twice.
  ghost predicate DaysCompared(
    rows: seq<Row>, orderId: Id, start: Option<int>, end: Option<int>, devices: seq<string>, reports: seq<Report>,
    pairs: seq<Reconcile.Pair>)
  {
    && (forall device, date ::
          OnSystem(rows, orderId, start, end, device, date) || OnCustomer(reports, devices, start, end, device, date)
          <==> exists i :: 0 <= i < |pairs| && pairs[i].device == device && pairs[i].date == date)
    && (forall i, j | 0 <= i < j < |pairs| ::
          || TextLess(pairs[i].date, pairs[j].date)
          || (pairs[i].date == pairs[j].date && TextLess(pairs[i].device, pairs[j].device)))
    && (forall i | 0 <= i < |pairs| :: DayCompared(rows, orderId, start, end, devices, reports, pairs[i]))
  }

  ghost predicate DayCompared(
    rows: seq<Row>, orderId: Id, start: Option<int>, end: Option<int>, devices: seq<string>, reports: seq<Report>,
    p: Reconcile.Pair)
  {
    var onSystem := OnSystem(rows, orderId, start, end, p.device, p.date);
    var onCustomer := OnCustomer(reports, devices, start, end, p.device, p.date);
    && p.systemHours == HoursOn(rows, orderId, start, end, p.device, p.date)
    && p.customerHours == (if DateInPeriod(p.date, start, end)
                           then multiset(devices)[p.device] as real * ReportsOn(reports, p.device, p.date) else 0.0)
    && p.delta == p.customerHours - p.systemHours
    && p.kind == (if !onSystem then Reconcile.CustomerOnly
                  else if !onCustomer then Reconcile.SystemOnly
                  else if p.customerHours > p.systemHours then Reconcile.OverReported
                  else if p.customerHours < p.systemHours then Reconcile.UnderReported
                  else Reconcile.Matched)
  }

  lemma SettledGrows(rows: seq<Row>, orderId: Id, start: Option<int>, end: Option<int>)
    requires rows != []
    ensures var n := |rows| - 1;
            Settled(Selected(rows, orderId, start, end))
            == Settled(Selected(rows[..n], orderId, start, end))
               + if rows[n].orderId == orderId && InPeriod(rows[n].occurredAt, start, end) && IsReconcilable(rows[n].status)
                 then [InputOf(rows[n])] else []
  {
    hide InPeriod, InputOf;
    var n := |rows| - 1;
    var before := Selected(rows[..n], orderId, start, end);
    if rows[n].orderId == orderId && InPeriod(rows[n].occurredAt, start, end) {
      SettledConcat(before, [rows[n]]);
      assert [rows[n]][..0] == [];
    } else {
      assert before + [] == before;
    }
  }

  lemma {:induction false} SystemSide(
    rows: seq<Row>, orderId: Id, start: Option<int>, end: Option<int>, device: string, date: string)
    ensures var system, k := Settled(Selected(rows, orderId, start, end)), Reconcile.Key(device, date);
            && Reconcile.Total(system, k) == HoursOn(rows, orderId, start, end, device, date)
            && (k in Reconcile.Slots(system) <==> OnSystem(rows, orderId, start, end, device, date))
  {
    hide InPeriod, DateText, Settled, Selected, HoursOn, OnSystem, Reconcile.Total, Reconcile.Slots;
    var k := Reconcile.Key(device, date);
    if rows == [] {
      NoRows(orderId, start, end, device, date);
    } else {
      var n := |rows| - 1;
      var before := Settled(Selected(rows[..n], orderId, start, end));
      SystemSide(rows[..n], orderId, start, end, device, date);
      SettledGrows(rows, orderId, start, end);
      SettledStatuses(rows[n].status);
      Reconcile.TotalsGrow(before, InputOf(rows[n]));
      Reconcile.SlotsGrow(before, InputOf(rows[n]));
      assert before + [] == before;
      OneMoreRow(rows, orderId, start, end, device, date);
    }
  }

  lemma OneMoreRow(rows: seq<Row>, orderId: Id, start: Option<int>, end: Option<int>, device: string, date: string)
    requires rows != []
    ensures var n := |rows| - 1;
            && HoursOn(rows, orderId, start, end, device, date)
               == HoursOn(rows[..n], orderId, start, end, device, date)
                  + (if CountsOn(rows[n], orderId, start, end, device, date) then rows[n].hours else 0.0)
            && (OnSystem(rows, orderId, start, end, device, date)
                <==> OnSystem(rows[..n], orderId, start, end, device, date)
                     || CountsOn(rows[n], orderId, start, end, device, date))
  {
    hide CountsOn;
    var n := |rows| - 1;
    assert rows == rows[..n] + [rows[n]];
    assert forall r :: r in rows <==> r in rows[..n] || r == rows[n];
  }

  lemma NoRows(orderId: Id, start: Option<int>, end: Option<int>, device: string, date: string)
    ensures Settled(Selected([], orderId, start, end)) == []
    ensures HoursOn([], orderId, start, end, device, date) == 0.0 && !OnSystem([], orderId, start, end, device, date)
    ensures Reconcile.Total([], Reconcile.Key(device, date)) == 0.0 && Reconcile.Slots([]) == {}
  {
  }

  lemma OneMoreReport(reports: seq<Report>, device: string, date: string)
    requires reports != []
    ensures var n := |reports| - 1;
            var here := reports[n].device == device && reports[n].date == date;
            && ReportsOn(reports, device, date)
               == ReportsOn(reports[..n], device, date) + (if here then reports[n].hours else 0.0)
            && (ReportsDay(reports, device, date) <==> ReportsDay(reports[..n], device, date) || here)
  {
    var n := |reports| - 1;
    assert reports == reports[..n] + [reports[n]];
    assert forall y :: y in reports <==> y in reports[..n] || y == reports[n];
  }

  lemma {:induction false} DeviceSide(
    reports: seq<Report>, reporter: string, start: Option<int>, end: Option<int>, device: string, date: string)
    ensures var given, k := ReportedBy(reports, reporter, start, end), Reconcile.Key(device, date);
            && Reconcile.Total(given, k)
               == (if device == reporter && DateInPeriod(date, start, end) then ReportsOn(reports, device, date) else 0.0)
            && (k in Reconcile.Slots(given) <==>
                  device == reporter && DateInPeriod(date, start, end) && ReportsDay(reports, device, date))
  {
    hide DateInPeriod, ReportsOn, ReportsDay, Reconcile.Total, Reconcile.Slots;
    if reports == [] {
      NothingReported(Reconcile.Key(device, date), device, date);
    } else {
      var n := |reports| - 1;
      var before, x := ReportedBy(reports[..n], reporter, start, end), reports[n];
      DeviceSide(reports[..n], reporter, start, end, device, date);
      OneMoreReport(reports, device, date);
      Reconcile.TotalsGrow(before, Reconcile.Input(x.device, x.date, x.hours));
      Reconcile.SlotsGrow(before, Reconcile.Input(x.device, x.date, x.hours));
      assert before + [] == before;
    }
  }

  lemma {:induction false} TotalConcat(a: seq<Reconcile.Input>, b: seq<Reconcile.Input>, k: Reconcile.Key)
    ensures Reconcile.Total(a + b, k) == Reconcile.Total(a, k) + Reconcile.Total(b, k)
    ensures k in Reconcile.Slots(a + b) <==> k in Reconcile.Slots(a) || k in Reconcile.Slots(b)
  {
    if b == [] {
      assert a + b == a;
      assert Reconcile.Slots([]) == {};
    } else {
      var front, e := b[..|b| - 1], b[|b| - 1];
      TotalConcat(a, front, k);
      assert a + b == (a + front) + [e] && b == front + [e];
      Reconcile.TotalsGrow(a + front, e);
      Reconcile.TotalsGrow(front, e);
      Reconcile.SlotsGrow(a + front, e);
      Reconcile.SlotsGrow(front, e);
    }
  }

  lemma NotOnce(x: real)
    ensures 0 as real * x == 0.0
  {
  }

  lemma OnceMore(m: nat, x: real)
    ensures (m + 1) as real * x == m as real * x + x
  {
  }

  lemma {:induction false} CustomerSide(
    reports: seq<Report>, devices: seq<string>, start: Option<int>, end: Option<int>, device: string, date: string)
    ensures var customer, k := Reported(reports, devices, start, end), Reconcile.Key(device, date);
            && Reconcile.Total(customer, k)
               == (if DateInPeriod(date, start, end)
                   then multiset(devices)[device] as real * ReportsOn(reports, device, date) else 0.0)
            && (k in Reconcile.Slots(customer) <==> OnCustomer(reports, devices, start, end, device, date))
  {
    hide DateInPeriod, ReportsOn, ReportedBy, Reconcile.Total, Reconcile.Slots;
    var k := Reconcile.Key(device, date);
    if devices == [] {
      NothingReported(k, device, date);
      assert multiset(devices)[device] == 0;
      NotOnce(ReportsOn(reports, device, date));
    } else {
      var n := |devices| - 1;
      var before, last := devices[..n], devices[n];
      assert devices == before + [last];
      CustomerSide(reports, before, start, end, device, date);
      DeviceSide(reports, last, start, end, device, date);
      TotalConcat(Reported(reports, before, start, end), ReportedBy(reports, last, start, end), k);
      assert multiset(devices) == multiset(before) + multiset{last};
      if last == device {
        OnceMore(multiset(before)[device], ReportsOn(reports, device, date));
      }
    }
  }

  lemma NothingReported(k: Reconcile.Key, device: string, date: string)
    ensures Reconcile.Total([], k) == 0.0 && Reconcile.Slots([]) == {}
    ensures ReportsOn([], device, date) == 0.0 && !ReportsDay([], device, date)
  {
  }

  // The answer of the engine is the comparison of days.
  lemma DiffComparesDays(
    rows: seq<Row>, orderId: Id, start: Option<int>, end: Option<int>, devices: seq<string>, reports: seq<Report>,
    d: Reconcile.Comparison)
    requires Reconcile.IsDiff(Settled(Selected(rows, orderId, start, end)), Reported(reports, devices, start, end), d)
    ensures DaysCompared(rows, orderId, start, end, devices, reports, d.pairs)
  {
    hide Settled, Selected, Reported, OnSystem, OnCustomer, Reconcile.Slots, Reconcile.PairFits, DayCompared, TextLess,
      Reconcile.Counts, Reconcile.StrictlySorted, Reconcile.SumDeltas, Reconcile.Round4, Reconcile.Members;
    var system, customer := Settled(Selected(rows, orderId, start, end)), Reported(reports, devices, start, end);
    forall device, date
      ensures OnSystem(rows, orderId, start, end, device, date) || OnCustomer(reports, devices, start, end, device, date)
              <==> exists i :: 0 <= i < |d.pairs| && d.pairs[i].device == device && d.pairs[i].date == date
    {
      SystemSide(rows, orderId, start, end, device, date);
      CustomerSide(reports, devices, start, end, device, date);
      PairOfKey(d.pairs, Reconcile.Key(device, date));
    }
    PairsInOrder(d.pairs);
    forall i | 0 <= i < |d.pairs|
      ensures DayCompared(rows, orderId, start, end, devices, reports, d.pairs[i])
    {
      PairComparesDay(rows, orderId, start, end, devices, reports, d.pairs[i]);
    }
  }

  lemma PairComparesDay(
    rows: seq<Row>, orderId: Id, start: Option<int>, end: Option<int>, devices: seq<string>, reports: seq<Report>,
    p: Reconcile.Pair)
    requires Reconcile.PairFits(Settled(Selected(rows, orderId, start, end)), Reported(reports, devices, start, end), p)
    ensures DayCompared(rows, orderId, start, end, devices, reports, p)
  {
    hide Settled, Selected, Reported, HoursOn, ReportsOn, OnSystem, OnCustomer, DateInPeriod, Reconcile.Total, Reconcile.Slots;
    SystemSide(rows, orderId, start, end, p.device, p.date);
    CustomerSide(reports, devices, start, end, p.device, p.date);
  }

  lemma PairsInOrder(pairs: seq<Reconcile.Pair>)
    requires Reconcile.StrictlySorted(Reconcile.KeysOf(pairs))
    ensures forall i, j | 0 <= i < j < |pairs| ::
              || TextLess(pairs[i].date, pairs[j].date)
              || (pairs[i].date == pairs[j].date && TextLess(pairs[i].device, pairs[j].device))
  {
    hide TextLess;
    var keys := Reconcile.KeysOf(pairs);
    forall i, j | 0 <= i < j < |pairs|
      ensures TextLess(pairs[i].date, pairs[j].date)
              || (pairs[i].date == pairs[j].date && TextLess(pairs[i].device, pairs[j].device))
    {
      assert Reconcile.KeyLess(keys[i], keys[j]);
    }
  }

  lemma PairOfKey(pairs: seq<Reconcile.Pair>, k: Reconcile.Key)
    ensures k in Reconcile.Members(Reconcile.KeysOf(pairs))
            <==> exists i :: 0 <= i < |pairs| && pairs[i].device == k.device && pairs[i].date == k.date
  {
    var keys := Reconcile.KeysOf(pairs);
    if i :| 0 <= i < |pairs| && pairs[i].device == k.device && pairs[i].date == k.date {
      assert keys[i] == k;
    }
  }

  method ComputeDiff(
    rows: seq<Row>, orderId: Id, start: Option<int>, end: Option<int>, devices: seq<string>, reports: seq<Report>)
    returns (d: Reconcile.Comparison)
    ensures Reconcile.IsDiff(
              Settled(Selected(rows, orderId, start, end)), Reported(reports, devices, start, end), d)
    ensures DaysCompared(rows, orderId, start, end, devices, reports, d.pairs)
  {
    hide Reconcile.IsDiff, Settled, Reported, DaysCompared;
    var system := CollectSystem(Selected(rows, orderId, start, end));
    var customer := CollectCustomer(reports, devices, start, end);
    d := Reconcile.Diff(system, customer);
    DiffComparesDays(rows, orderId, start, end, devices, reports, d);
  }

  // --- the two sides cut the period differently ------------------------------------------

  // The records' side compares texts. It keeps exactly start <= t < end unless t
  // is misordered with a bound and the other bound does not make up for it.
  lemma PeriodIsHalfOpen(t: int, start: int, end: int)
    requires InRange(t) && InRange(start) && InRange(end)
    ensures (InPeriod(t, Some(start), Some(end)) <==> start <= t < end)
            <==> !(if Misordered(t, start) && Misordered(t, end) then start <= t < end || end <= t < start
                   else (Misordered(t, start) && t < end) || (Misordered(t, end) && start <= t))
  {
    hide TextBefore, Misordered;
    TextOrderExact(t, start);
    TextOrderExact(t, end);
  }

  // With bounds on whole seconds: the first second loses all but its first
  // instant, and the second from the end on is let in but for its first instant.
  lemma PeriodOfWholeSeconds(t: int, start: int, end: int)
    requires InRange(t) && InRange(start) && InRange(end)
    requires start % SECOND == 0 && end % SECOND == 0
    ensures InPeriod(t, Some(start), Some(end))
            <==> (t == start || start + SECOND <= t) && t != end && t < end + SECOND
  {
    hide TextBefore, Misread;
    TextOrderExact(t, start);
    TextOrderExact(t, end);
    WholeSecondMisread(start, t);
    WholeSecondMisread(end, t);
  }

  // Which way the text comparison of two instants falls, told from the instants.
  predicate ReadsBefore(a: int, b: int) {
    (a < b && !Misread(a, b)) || Misread(b, a)
  }

  predicate BoundsInRange(start: Option<int>, end: Option<int>) {
    (start.Some? ==> InRange(start.value)) && (end.Some? ==> InRange(end.value))
  }

  // The day is one the period touches.
  predicate DayTouched(t: int, start: Option<int>, end: Option<int>) {
    (start.Some? ==> DayOf(start.value) <= DayOf(t)) && (end.Some? ==> DayOf(t) <= DayOf(end.value))
  }

  // The instant reads as before the start, or not as before the end.
  predicate OutsideBounds(t: int, start: Option<int>, end: Option<int>) {
    (start.Some? && ReadsBefore(t, start.value)) || (end.Some? && !ReadsBefore(t, end.value))
  }

  lemma DayInRange(t: int)
    requires InRange(t)
    ensures 0 <= DayOf(t) < YearStart(10_000)
  {
    hide YearStart;
    Within(t, YearStart(10_000));
  }

  lemma Within(t: int, days: int)
    requires 0 <= t < days * DAY
    ensures 0 <= t / DAY < days
  {
  }

  // The customer's side keeps exactly the days the period touches.
  lemma CustomerKeepsTouchedDays(t: int, start: Option<int>, end: Option<int>)
    requires InRange(t) && BoundsInRange(start, end)
    ensures DateInPeriod(DateText(DayOf(t)), start, end) <==> DayTouched(t, start, end)
  {
    hide DateText, YearStart, TextLess, InRange, DayOf;
    DayInRange(t);
    if start.Some? {
      DayInRange(start.value);
      DateTextOrder(DayOf(t), DayOf(start.value));
    }
    if end.Some? {
      DayInRange(end.value);
      DateTextOrder(DayOf(end.value), DayOf(t));
    }
  }

  lemma RecordsKeepReadInside(t: int, start: Option<int>, end: Option<int>)
    requires InRange(t) && BoundsInRange(start, end)
    ensures InPeriod(t, start, end) <==> !OutsideBounds(t, start, end)
  {
    hide TextBefore, Misread, InRange;
    if start.Some? {
      TextOrderExact(t, start.value);
    }
    if end.Some? {
      TextOrderExact(t, end.value);
    }
  }

  // Misread instants share their second, so a record let in is on a touched day.
  lemma ReadInsideIsTouched(t: int, start: Option<int>, end: Option<int>)
    requires !OutsideBounds(t, start, end)
    ensures DayTouched(t, start, end)
  {
    hide Fraction;
    if start.Some? {
      ReadsLater(t, start.value);
    }
    if end.Some? {
      ReadsEarlier(t, end.value);
    }
  }

  lemma ReadsLater(t: int, start: int)
    requires !ReadsBefore(t, start)
    ensures DayOf(start) <= DayOf(t)
  {
    hide Fraction;
    if Misread(t, start) {
      SameSecondSameDay(t, start);
    }
  }

  lemma ReadsEarlier(t: int, end: int)
    requires ReadsBefore(t, end)
    ensures DayOf(t) <= DayOf(end)
  {
    hide Fraction;
    if Misread(end, t) {
      SameSecondSameDay(t, end);
    }
  }

  lemma SameSecondSameDay(a: int, b: int)
    requires a / SECOND == b / SECOND
    ensures DayOf(a) == DayOf(b)
  {
    assert DayOf(a) == a / SECOND / 86_400 && DayOf(b) == b / SECOND / 86_400;
  }

  // Record and report of one day are both in or both out, except that on a day
  // the period touches a record outside the bounds is left out while the report
  // stays in. It never happens the other way round.
  lemma SidesAgreeExactly(t: int, start: Option<int>, end: Option<int>)
    requires InRange(t) && BoundsInRange(start, end)
    ensures (DateInPeriod(DateText(DayOf(t)), start, end) <==> InPeriod(t, start, end))
            <==> !(DayTouched(t, start, end) && OutsideBounds(t, start, end))
    ensures InPeriod(t, start, end) ==> DateInPeriod(DateText(DayOf(t)), start, end)
  {
    hide DateInPeriod, InPeriod, DayTouched, OutsideBounds, InRange, DateText, BoundsInRange;
    CustomerKeepsTouchedDays(t, start, end);
    RecordsKeepReadInside(t, start, end);
    if !OutsideBounds(t, start, end) {
      ReadInsideIsTouched(t, start, end);
    }
  }

  // The same with both bounds on whole seconds: of the touched days, what comes
  // before the start, the rest of its second, the end itself and what comes a
  // second or more after it are customer-only.
  lemma SidesOfWholeSeconds(t: int, start: int, end: int)
    requires InRange(t) && InRange(start) && InRange(end)
    requires start % SECOND == 0 && end % SECOND == 0
    ensures (DateInPeriod(DateText(DayOf(t)), Some(start), Some(end)) <==> InPeriod(t, Some(start), Some(end)))
            <==> !(DayOf(start) <= DayOf(t) <= DayOf(end)
                   && (t < start || start < t < start + SECOND || t == end || end + SECOND <= t))
  {
    hide DateInPeriod, InPeriod, InRange, DateText, DayOf, Misread;
    SidesAgreeExactly(t, Some(start), Some(end));
    WholeSecondMisread(start, t);
    WholeSecondMisread(end, t);
  }

  // And for any bounds, away from their seconds.
  lemma SidesAwayFromBounds(t: int, start: int, end: int)
    requires InRange(t) && InRange(start) && InRange(end)
    requires t / SECOND != start / SECOND && t / SECOND != end / SECOND
    ensures InPeriod(t, Some(start), Some(end)) <==> start <= t < end
    ensures (DateInPeriod(DateText(DayOf(t)), Some(start), Some(end)) <==> InPeriod(t, Some(start), Some(end)))
            <==> !(DayOf(start) <= DayOf(t) <= DayOf(end) && (t < start || end <= t))
  {
    hide DateInPeriod, InRange, DateText, DayOf, Fraction, TextBefore;
    SidesAgreeExactly(t, Some(start), Some(end));
    RecordsKeepReadInside(t, Some(start), Some(end));
  }

  // On the day the period ends, the customer's hours are in, whatever the time
  // of day, while records from a second after the end on are out.
  lemma LastDayIsCustomerOnly(end: int, t: int)
    requires InRange(end) && InRange(t) && DayOf(t) == DayOf(end) && end + SECOND <= t
    ensures DateInPeriod(DateText(DayOf(t)), None, Some(end)) && !InPeriod(t, None, Some(end))
  {
    hide TextBefore, DateText;
    LessIrreflexive(DateText(DayOf(end)));
    ASecondApart(end, t);
  }

  // On the day the period starts, records up to a second before it are out, the
  // customer's hours are in.
  lemma FirstDayIsCustomerOnly(start: int, t: int)
    requires InRange(start) && InRange(t) && DayOf(t) == DayOf(start) && t + SECOND <= start
    ensures DateInPeriod(DateText(DayOf(t)), Some(start), None) && !InPeriod(t, Some(start), None)
  {
    hide TextBefore, DateText;
    LessIrreflexive(DateText(DayOf(start)));
    ASecondApart(t, start);
  }
}
