// Timestamps as the store writes them: RFC 3339 text in UTC, up to nine
// fractional digits with trailing zeros dropped, compared in SQL as text.
// Instants are nanoseconds counted from 0000-01-01T00:00:00Z in the proleptic
// Gregorian calendar.
module TimeText {

  const SECOND := 1_000_000_000
  const DAY := 86_400 * SECOND

  // time.Time{}: 0001-01-01T00:00:00Z.
  const ZERO_TIME := 366 * DAY

  // The UTC date of an instant, as a day number.
  function DayOf(t: int): int {
    t / DAY
  }

  // --- text order -------------------------------------------------------------

  // BINARY collation.
  predicate TextLess(a: string, b: string) {
    if b == [] then false
    else if a == [] then true
    else if a[0] != b[0] then a[0] < b[0]
    else TextLess(a[1..], b[1..])
  }

  lemma {:induction false} LessAfter(p: string, a: string, b: string)
    ensures TextLess(p + a, p + b) == TextLess(a, b)
  {
    if p == [] {
      assert p + a == a && p + b == b;
    } else {
      assert (p + a)[1..] == p[1..] + a && (p + b)[1..] == p[1..] + b;
      LessAfter(p[1..], a, b);
    }
  }

  lemma {:induction false} LessAtFirst(a: string, b: string, x: string, y: string)
    requires |a| == |b| && a != b
    ensures TextLess(a + x, b + y) == TextLess(a, b)
  {
    if a[0] == b[0] {
      assert a == [a[0]] + a[1..] && b == [b[0]] + b[1..];
      assert (a + x)[1..] == a[1..] + x && (b + y)[1..] == b[1..] + y;
      LessAtFirst(a[1..], b[1..], x, y);
    }
  }

  lemma {:induction false} LessIsTotal(a: string, b: string)
    requires a != b
    ensures TextLess(a, b) != TextLess(b, a)
  {
    if a != [] && b != [] && a[0] == b[0] {
      assert a == [a[0]] + a[1..] && b == [b[0]] + b[1..];
      LessIsTotal(a[1..], b[1..]);
    }
  }

  lemma {:induction false} LessIrreflexive(a: string)
    ensures !TextLess(a, a)
  {
    if a != [] {
      LessIrreflexive(a[1..]);
    }
  }

  lemma {:induction false} LessTransitive(a: string, b: string, c: string)
    requires TextLess(a, b) && TextLess(b, c)
    ensures TextLess(a, c)
  {
    if a != [] && a[0] == b[0] == c[0] {
      LessTransitive(a[1..], b[1..], c[1..]);
    }
  }

  // --- fixed-width numbers ------------------------------------------------------

  function Digit(n: int): char
    requires 0 <= n < 10
  {
    "0123456789"[n]
  }

  function Power10(w: nat): (p: nat)
    ensures 0 < p
  {
    if w == 0 then 1 else 10 * Power10(w - 1)
  }

  function Pad(w: nat, n: nat): (s: string)
    ensures |s| == w
  {
    if w == 0 then "" else Pad(w - 1, n / 10) + [Digit(n % 10)]
  }

  lemma {:induction false} PadOrder(w: nat, u: nat, v: nat)
    requires u < Power10(w) && v < Power10(w)
    ensures TextLess(Pad(w, u), Pad(w, v)) <==> u < v
    ensures Pad(w, u) == Pad(w, v) <==> u == v
  {
    if w > 0 {
      PadOrder(w - 1, u / 10, v / 10);
      if u / 10 == v / 10 {
        DigitOrder(u % 10, v % 10);
        LessAfter(Pad(w - 1, u / 10), [Digit(u % 10)], [Digit(v % 10)]);
        SameHead(Pad(w - 1, u / 10), [Digit(u % 10)], [Digit(v % 10)]);
      } else {
        LessAtFirst(Pad(w - 1, u / 10), Pad(w - 1, v / 10), [Digit(u % 10)], [Digit(v % 10)]);
        assert Pad(w, u)[..w - 1] == Pad(w - 1, u / 10) && Pad(w, v)[..w - 1] == Pad(w - 1, v / 10);
      }
    }
  }

  lemma DigitOrder(m: int, n: int)
    requires 0 <= m < 10 && 0 <= n < 10
    ensures TextLess([Digit(m)], [Digit(n)]) <==> m < n
    ensures [Digit(m)] == [Digit(n)] <==> m == n
  {
    assert [Digit(m)][0] == Digit(m) && [Digit(n)][0] == Digit(n);
  }

  // Numbers of fixed widths, each followed by its separator.
  function Joined(widths: seq<nat>, separators: seq<string>, values: seq<nat>): (s: string)
    requires |widths| == |separators| == |values|
  {
    if values == [] then ""
    else Pad(widths[0], values[0]) + (separators[0] + Joined(widths[1..], separators[1..], values[1..]))
  }

  predicate NatsLess(a: seq<nat>, b: seq<nat>)
    requires |a| == |b|
  {
    a != [] && (a[0] < b[0] || (a[0] == b[0] && NatsLess(a[1..], b[1..])))
  }

  predicate Fits(widths: seq<nat>, values: seq<nat>) {
    |widths| == |values| && forall i | 0 <= i < |values| :: values[i] < Power10(widths[i])
  }

  lemma {:induction false} JoinedLength(widths: seq<nat>, separators: seq<string>, a: seq<nat>, b: seq<nat>)
    requires |widths| == |separators| == |a| == |b|
    ensures |Joined(widths, separators, a)| == |Joined(widths, separators, b)|
  {
    if a != [] {
      JoinedLength(widths[1..], separators[1..], a[1..], b[1..]);
    }
  }

  lemma {:induction false} JoinedOrder(widths: seq<nat>, separators: seq<string>, a: seq<nat>, b: seq<nat>)
    requires |separators| == |widths| && Fits(widths, a) && Fits(widths, b)
    ensures TextLess(Joined(widths, separators, a), Joined(widths, separators, b)) <==> NatsLess(a, b)
    ensures Joined(widths, separators, a) == Joined(widths, separators, b) <==> a == b
  {
    if a != [] {
      var x := separators[0] + Joined(widths[1..], separators[1..], a[1..]);
      var y := separators[0] + Joined(widths[1..], separators[1..], b[1..]);
      PadOrder(widths[0], a[0], b[0]);
      assert a == [a[0]] + a[1..] && b == [b[0]] + b[1..];
      if a[0] == b[0] {
        JoinedOrder(widths[1..], separators[1..], a[1..], b[1..]);
        LessAfter(Pad(widths[0], a[0]), x, y);
        LessAfter(separators[0], Joined(widths[1..], separators[1..], a[1..]), Joined(widths[1..], separators[1..], b[1..]));
        SameHead(Pad(widths[0], a[0]) + separators[0], Joined(widths[1..], separators[1..], a[1..]), Joined(widths[1..], separators[1..], b[1..]));
        assert Pad(widths[0], a[0]) + separators[0] + Joined(widths[1..], separators[1..], a[1..]) == Pad(widths[0], a[0]) + x;
        assert Pad(widths[0], a[0]) + separators[0] + Joined(widths[1..], separators[1..], b[1..]) == Pad(widths[0], a[0]) + y;
      } else {
        LessAtFirst(Pad(widths[0], a[0]), Pad(widths[0], b[0]), x, y);
        assert (Pad(widths[0], a[0]) + x)[..widths[0]] == Pad(widths[0], a[0]);
        assert (Pad(widths[0], b[0]) + y)[..widths[0]] == Pad(widths[0], b[0]);
      }
    }
  }

  lemma SameHead(p: string, a: string, b: string)
    ensures p + a == p + b <==> a == b
  {
    assert (p + a)[|p|..] == a && (p + b)[|p|..] == b;
  }

  // --- the calendar ---------------------------------------------------------------

  predicate Leap(y: int) {
    y % 4 == 0 && (y % 100 != 0 || y % 400 == 0)
  }

  // Days before the first of January of year y.
  function YearStart(y: int): int {
    365 * y + (y + 3) / 4 - (y + 99) / 100 + (y + 399) / 400
  }

  lemma YearLength(y: int)
    ensures YearStart(y + 1) == YearStart(y) + if Leap(y) then 366 else 365
  {
    hide Leap;
    Quarters(y);
    Centuries(y);
    FourCenturies(y);
    LeapByRemainders(y);
  }

  lemma Quarters(y: int)
    ensures (y + 4) / 4 == (y + 3) / 4 + if y % 4 == 0 then 1 else 0
  {
  }

  lemma Centuries(y: int)
    ensures (y + 100) / 100 == (y + 99) / 100 + if y % 100 == 0 then 1 else 0
  {
  }

  lemma FourCenturies(y: int)
    ensures (y + 400) / 400 == (y + 399) / 400 + if y % 400 == 0 then 1 else 0
  {
  }

  lemma LeapByRemainders(y: int)
    ensures (if Leap(y) then 1 else 0)
            == (if y % 4 == 0 then 1 else 0) - (if y % 100 == 0 then 1 else 0) + (if y % 400 == 0 then 1 else 0)
  {
    if y % 100 == 0 {
      assert y == 100 * (y / 100);
      assert y % 4 == 0 by { assert y == 4 * (25 * (y / 100)); }
    }
    if y % 400 == 0 {
      assert y == 400 * (y / 400);
      assert y % 100 == 0 by { assert y == 100 * (4 * (y / 400)); }
    }
  }

  lemma {:induction false} YearStartsGrow(y: int, z: int)
    requires y <= z
    ensures YearStart(y) + 365 * (z - y) <= YearStart(z)
    decreases z - y
  {
    if y < z {
      YearStartsGrow(y, z - 1);
      YearLength(z - 1);
    }
  }

  function YearFrom(day: int, y: int): (r: int)
    requires YearStart(y) <= day
    ensures YearStart(r) <= day < YearStart(r + 1)
    decreases day - YearStart(y)
  {
    YearLength(y);
    if day < YearStart(y + 1) then y else YearFrom(day, y + 1)
  }

  function YearOf(day: int): (y: int)
    ensures YearStart(y) <= day < YearStart(y + 1)
  {
    if 0 <= day then YearFrom(day, 0)
    else
      YearStartsGrow(day, 0);
      YearFrom(day, day)
  }

  // Days of the year before month m; month 13 is the next year.
  function MonthStart(leap: bool, m: int): int
    requires 1 <= m <= 13
  {
    [0, 31, 59, 90, 120, 151, 181, 212, 243, 273, 304, 334, 365][m - 1] + if leap && m > 2 then 1 else 0
  }

  function MonthFrom(leap: bool, dayOfYear: int, m: int): (r: int)
    requires 1 <= m <= 12 && MonthStart(leap, m) <= dayOfYear < MonthStart(leap, 13)
    ensures 1 <= r <= 12 && MonthStart(leap, r) <= dayOfYear < MonthStart(leap, r + 1)
    decreases 12 - m
  {
    if dayOfYear < MonthStart(leap, m + 1) then m else MonthFrom(leap, dayOfYear, m + 1)
  }

  datatype Civil = Civil(year: int, month: int, day: int)

  function CivilOf(day: int): (c: Civil)
    ensures c.year == YearOf(day) && 1 <= c.month <= 12
    ensures YearStart(c.year) + MonthStart(Leap(c.year), c.month) + c.day - 1 == day
    ensures day < YearStart(c.year) + MonthStart(Leap(c.year), c.month + 1)
  {
    var y := YearOf(day);
    YearHasDay(day);
    var m := MonthFrom(Leap(y), day - YearStart(y), 1);
    Civil(y, m, day - YearStart(y) - MonthStart(Leap(y), m) + 1)
  }

  lemma YearHasDay(day: int)
    ensures MonthStart(Leap(YearOf(day)), 1) <= day - YearStart(YearOf(day)) < MonthStart(Leap(YearOf(day)), 13)
  {
    hide YearOf, YearStart, Leap;
    YearLength(YearOf(day));
  }

  lemma MonthLength(leap: bool, m: int)
    requires 1 <= m <= 12
    ensures 28 <= MonthStart(leap, m + 1) - MonthStart(leap, m) <= 31
  {
  }

  lemma DayInMonth(day: int)
    ensures 1 <= CivilOf(day).day <= 31
  {
    hide CivilOf, YearOf, YearStart, MonthStart, Leap;
    MonthLength(Leap(CivilOf(day).year), CivilOf(day).month);
    DayFromStart(day);
  }

  lemma DayFromStart(day: int)
    ensures 1 <= CivilOf(day).day
  {
  }

  predicate CivilLess(a: Civil, b: Civil) {
    a.year < b.year || (a.year == b.year && (a.month < b.month || (a.month == b.month && a.day < b.day)))
  }

  // Calendar dates are ordered as the days they name.
  lemma CivilOrder(d: int, e: int)
    requires d < e
    ensures CivilLess(CivilOf(d), CivilOf(e))
  {
    hide YearStart, YearOf, CivilOf, MonthStart, Leap;
    YearsInOrder(d, e);
    if CivilOf(d).year == CivilOf(e).year {
      MonthsInOrder(d, e);
    }
  }

  lemma YearsInOrder(d: int, e: int)
    requires d < e
    ensures YearOf(d) <= YearOf(e)
  {
    hide YearStart, YearOf;
    if YearOf(e) < YearOf(d) {
      YearStartsGrow(YearOf(e) + 1, YearOf(d));
    }
  }

  lemma MonthsInOrder(d: int, e: int)
    requires d < e && CivilOf(d).year == CivilOf(e).year
    ensures CivilOf(d).month <= CivilOf(e).month
    ensures CivilOf(d).month == CivilOf(e).month ==> CivilOf(d).day < CivilOf(e).day
  {
    hide YearStart, YearOf, CivilOf, MonthStart, Leap;
    var a, b := CivilOf(d), CivilOf(e);
    if b.month < a.month {
      MonthsGrow(Leap(a.year), b.month + 1, a.month);
      DayFromStart(d);
    }
  }

  lemma {:induction false} MonthsGrow(leap: bool, m: int, n: int)
    requires 1 <= m <= n <= 13
    ensures MonthStart(leap, m) <= MonthStart(leap, n)
    decreases n - m
  {
    if m < n {
      MonthsGrow(leap, m, n - 1);
    }
  }

  // --- formatTime -------------------------------------------------------------------

  const WIDTHS: seq<nat> := [4, 2, 2, 2, 2, 2]
  const SEPARATORS: seq<string> := ["-", "-", "T", ":", ":", ""]

  function Decimal(n: nat): string {
    if n < 10 then [Digit(n)] else Decimal(n / 10) + [Digit(n % 10)]
  }

  // Years are padded to four digits; larger and negative years grow wider.
  function YearText(y: int): string {
    if y < 0 then "-" + PlainYear(-y) else PlainYear(y)
  }

  function PlainYear(y: nat): string {
    if y < 10_000 then Pad(4, y) else Decimal(y)
  }

  // Month to second of a whole second since the epoch.
  function ClockFields(second: int): seq<nat> {
    var c := CivilOf(second / 86_400);
    DayFromStart(second / 86_400);
    var s := second % 86_400;
    [c.month, c.day, s / 3_600, s / 60 % 60, s % 60]
  }

  // "2006-01-02T15:04:05"
  function SecondText(second: int): string {
    YearText(CivilOf(second / 86_400).year)
    + ("-" + Joined(WIDTHS[1..], SEPARATORS[1..], ClockFields(second)))
  }

  // "2006-01-02"
  function DateText(day: int): string {
    DayFromStart(day);
    YearText(CivilOf(day).year) + ("-" + (Pad(2, CivilOf(day).month) + ("-" + Pad(2, CivilOf(day).day))))
  }

  // Digits with trailing zeros dropped.
  function Trim(s: string): string {
    if s == [] then []
    else if Trim(s[1..]) == [] && s[0] == '0' then []
    else [s[0]] + Trim(s[1..])
  }

  function Fraction(t: int): string {
    Trim(Pad(9, t % SECOND))
  }

  function FractionText(t: int): string {
    if Fraction(t) == "" then "" else "." + Fraction(t)
  }

  function FormatTime(t: int): string {
    SecondText(t / SECOND) + (FractionText(t) + "Z")
  }

  // The comparison SQL makes on two stored timestamps.
  predicate TextBefore(a: int, b: int) {
    TextLess(FormatTime(a), FormatTime(b))
  }

  // --- text order against time order ---------------------------------------------

  // Four-digit years.
  predicate InRange(t: int) {
    0 <= t < YearStart(10_000) * DAY
  }

  lemma YearInRange(day: int)
    requires 0 <= day < YearStart(10_000)
    ensures 0 <= YearOf(day) < 10_000
  {
    if YearOf(day) < 0 {
      YearStartsGrow(YearOf(day) + 1, 0);
    }
    if 10_000 <= YearOf(day) {
      YearStartsGrow(10_000, YearOf(day));
    }
  }

  function Fields(second: int): seq<nat>
    requires 0 <= YearOf(second / 86_400)
  {
    [CivilOf(second / 86_400).year] + ClockFields(second)
  }

  lemma SecondTextJoins(second: int)
    requires 0 <= YearOf(second / 86_400) < 10_000
    ensures SecondText(second) == Joined(WIDTHS, SEPARATORS, Fields(second))
    ensures Fits(WIDTHS, Fields(second))
  {
    hide CivilOf, YearOf, YearStart, MonthStart, Leap, Power10, Pad;
    assert Fields(second)[1..] == ClockFields(second);
    SmallPowers();
    DayInMonth(second / 86_400);
  }

  lemma SmallPowers()
    ensures Power10(2) == 100 && Power10(4) == 10_000
  {
    assert Power10(2) == 100;
  }

  lemma FieldsOrder(s: int, r: int)
    requires 0 <= YearOf(s / 86_400) && 0 <= YearOf(r / 86_400) && s < r
    ensures NatsLess(Fields(s), Fields(r))
  {
    hide CivilOf, YearOf, Leap, YearStart, MonthStart, Power10, NatsLess, CivilLess;
    DayInMonth(s / 86_400);
    DayInMonth(r / 86_400);
    if s / 86_400 < r / 86_400 {
      DateOrder(s, r);
    } else {
      assert s % 86_400 < r % 86_400;
      TimeOfDayOrder(s, r);
    }
  }

  lemma DateOrder(s: int, r: int)
    requires 0 <= YearOf(s / 86_400) && 0 <= YearOf(r / 86_400) && s / 86_400 < r / 86_400
    ensures NatsLess(Fields(s), Fields(r))
  {
    hide CivilOf, YearOf, Leap, YearStart, MonthStart, NatsLess;
    var a, b := CivilOf(s / 86_400), CivilOf(r / 86_400);
    CivilOrder(s / 86_400, r / 86_400);
    LessAt(Fields(s), Fields(r), if a.year < b.year then 0 else if a.month < b.month then 1 else 2);
  }

  lemma TimeOfDayOrder(s: int, r: int)
    requires 0 <= YearOf(s / 86_400) && s / 86_400 == r / 86_400 && s % 86_400 < r % 86_400
    ensures NatsLess(Fields(s), Fields(r))
  {
    hide CivilOf, YearOf, Leap, YearStart, MonthStart, NatsLess;
    var u, v := s % 86_400, r % 86_400;
    ClockOrder(u, v);
    LessAt(Fields(s), Fields(r), if u / 3_600 < v / 3_600 then 3 else if u / 60 % 60 < v / 60 % 60 then 4 else 5);
  }

  lemma {:induction false} LessAt(a: seq<nat>, b: seq<nat>, k: nat)
    requires |a| == |b| && k < |a| && a[..k] == b[..k] && a[k] < b[k]
    ensures NatsLess(a, b)
  {
    if k > 0 {
      assert a[0] == a[..k][0] && b[0] == b[..k][0];
      assert a[1..][..k - 1] == a[..k][1..] && b[1..][..k - 1] == b[..k][1..];
      LessAt(a[1..], b[1..], k - 1);
    }
  }

  lemma ClockOrder(s: int, r: int)
    requires 0 <= s < r < 86_400
    ensures s / 3_600 < r / 3_600
            || (s / 3_600 == r / 3_600
                && (s / 60 % 60 < r / 60 % 60 || (s / 60 % 60 == r / 60 % 60 && s % 60 < r % 60)))
  {
  }

  lemma InRangeYear(t: int)
    requires InRange(t)
    ensures 0 <= YearOf(t / SECOND / 86_400) < 10_000
  {
    assert t / SECOND / 86_400 == t / DAY;
    YearInRange(t / SECOND / 86_400);
  }

  // In different whole seconds, text order is time order.
  lemma DifferentSeconds(a: int, b: int)
    requires InRange(a) && InRange(b) && a / SECOND != b / SECOND
    ensures TextBefore(a, b) <==> a < b
  {
    InRangeYear(a);
    InRangeYear(b);
    var s, r := a / SECOND, b / SECOND;
    SecondTextJoins(s);
    SecondTextJoins(r);
    if s < r {
      FieldsOrder(s, r);
    } else {
      FieldsOrder(r, s);
      NatsLessAsymmetric(Fields(s), Fields(r));
    }
    NatsLessIrreflexive(Fields(s));
    JoinedOrder(WIDTHS, SEPARATORS, Fields(s), Fields(r));
    JoinedLength(WIDTHS, SEPARATORS, Fields(s), Fields(r));
    LessAtFirst(SecondText(s), SecondText(r), FractionText(a) + "Z", FractionText(b) + "Z");
  }

  lemma {:induction false} NatsLessAsymmetric(a: seq<nat>, b: seq<nat>)
    requires |a| == |b| && NatsLess(b, a)
    ensures !NatsLess(a, b) && a != b
  {
    if a[0] == b[0] {
      NatsLessAsymmetric(a[1..], b[1..]);
    }
  }

  lemma {:induction false} NatsLessIrreflexive(a: seq<nat>)
    ensures !NatsLess(a, a)
  {
    if a != [] {
      NatsLessIrreflexive(a[1..]);
    }
  }

  predicate AllDigits(s: string) {
    forall i | 0 <= i < |s| :: '0' <= s[i] <= '9'
  }

  lemma {:induction false} PadIsDigits(w: nat, n: nat)
    ensures AllDigits(Pad(w, n))
  {
    if w > 0 {
      PadIsDigits(w - 1, n / 10);
    }
  }

  lemma {:induction false} TrimIsDigits(s: string)
    requires AllDigits(s)
    ensures AllDigits(Trim(s))
  {
    if s != [] {
      TrimIsDigits(s[1..]);
    }
  }

  // Padded digits in order: trimmed and closed by Z, they are still in order
  // unless the smaller is a proper prefix of the larger.
  lemma {:induction false} TrimmedOrder(x: string, y: string)
    requires |x| == |y| && AllDigits(x) && AllDigits(y) && TextLess(x, y)
    ensures TextLess(Trim(x) + "Z", Trim(y) + "Z") <==> !(Trim(x) < Trim(y))
    ensures Trim(x) != Trim(y)
  {
    TrimIsDigits(x);
    TrimIsDigits(y);
    if x[0] != y[0] {
      assert (Trim(x) + "Z")[0] != (Trim(y) + "Z")[0] || Trim(x) == [];
      if Trim(x) == [] {
        assert Trim(y) == [y[0]] + Trim(y[1..]);
      }
    } else {
      TrimmedOrder(x[1..], y[1..]);
      var a, b := Trim(x[1..]), Trim(y[1..]);
      NonZeroTail(x[1..], y[1..]);
      if Trim(x) == [] {
        assert Trim(y) == [y[0]] + b;
      } else {
        assert Trim(x) == [x[0]] + a && Trim(y) == [x[0]] + b;
        assert Trim(x) + "Z" == [x[0]] + (a + "Z") && Trim(y) + "Z" == [x[0]] + (b + "Z");
        LessAfter([x[0]], a + "Z", b + "Z");
        PrefixAfter(x[0], a, b);
        SameHead([x[0]], a, b);
      }
    }
  }

  lemma PrefixAfter(c: char, a: string, b: string)
    ensures [c] + a < [c] + b <==> a < b
  {
    if [c] + a < [c] + b {
      assert ([c] + b)[1..][..|a|] == ([c] + b)[..|a| + 1][1..];
      assert ([c] + a)[1..] == a && ([c] + b)[1..] == b;
    }
  }

  // The larger of two padded numbers is not all zeros.
  lemma {:induction false} NonZeroTail(x: string, y: string)
    requires |x| == |y| && AllDigits(x) && AllDigits(y) && TextLess(x, y)
    ensures Trim(y) != []
  {
    if x[0] == y[0] {
      NonZeroTail(x[1..], y[1..]);
    }
  }

  lemma NinePlaces()
    ensures Power10(9) == SECOND
  {
    assert Power10(3) == 1_000;
    assert Power10(6) == 1_000_000;
  }

  // The trimmed fractions of two instants in order within one second.
  lemma FractionsDiffer(a: int, b: int)
    requires a / SECOND == b / SECOND && a < b
    ensures AllDigits(Fraction(a)) && AllDigits(Fraction(b))
    ensures Fraction(b) != "" && Fraction(a) != Fraction(b)
    ensures TextLess(Fraction(a) + "Z", Fraction(b) + "Z") <==> !(Fraction(a) < Fraction(b))
  {
    hide Pad, Power10, Trim;
    var x, y := Pad(9, a % SECOND), Pad(9, b % SECOND);
    NinePlaces();
    PadOrder(9, a % SECOND, b % SECOND);
    PadIsDigits(9, a % SECOND);
    PadIsDigits(9, b % SECOND);
    TrimmedOrder(x, y);
    NonZeroTail(x, y);
    TrimIsDigits(x);
    TrimIsDigits(y);
  }

  // The point before the fraction leaves the order as it is.
  lemma PointedOrder(f: string, g: string)
    requires AllDigits(f) && g != "" && f != g
    ensures TextLess((if f == "" then "" else "." + f) + "Z", "." + g + "Z")
            <==> f != "" && TextLess(f + "Z", g + "Z")
  {
    assert "." + g + "Z" == "." + (g + "Z");
    if f != "" {
      assert "." + f + "Z" == "." + (f + "Z");
      LessAfter(".", f + "Z", g + "Z");
    } else {
      assert "" + "Z" == "Z" && ("." + g + "Z")[0] == '.';
    }
  }

  // Within one second, text order disagrees with time order exactly when the
  // trimmed fraction of the earlier is a proper prefix of the later's.
  lemma SameSecond(a: int, b: int)
    requires a / SECOND == b / SECOND && a < b
    ensures TextBefore(a, b) <==> !(Fraction(a) < Fraction(b))
    ensures TextBefore(b, a) <==> Fraction(a) < Fraction(b)
  {
    hide Fraction, SecondText, TextLess;
    FractionsDiffer(a, b);
    PointedOrder(Fraction(a), Fraction(b));
    LessAfter(SecondText(a / SECOND), FractionText(a) + "Z", FractionText(b) + "Z");
    DifferentTexts(a, b);
    LessIsTotal(FormatTime(a), FormatTime(b));
  }

  lemma DifferentTexts(a: int, b: int)
    requires a / SECOND == b / SECOND && Fraction(a) != Fraction(b)
    ensures FormatTime(a) != FormatTime(b)
  {
    SameHead(SecondText(a / SECOND), FractionText(a) + "Z", FractionText(b) + "Z");
    assert (FractionText(a) + "Z")[..|FractionText(a) + "Z"| - 1] == FractionText(a);
    assert (FractionText(b) + "Z")[..|FractionText(b) + "Z"| - 1] == FractionText(b);
    if Fraction(a) != "" && Fraction(b) != "" {
      SameHead(".", Fraction(a), Fraction(b));
    }
  }

  // A second or more apart, the SQL comparison is right.
  lemma ASecondApart(a: int, b: int)
    requires InRange(a) && InRange(b)
    ensures a + SECOND <= b ==> TextBefore(a, b) && !TextBefore(b, a)
  {
    if a + SECOND <= b {
      assert a / SECOND < b / SECOND;
      DifferentSeconds(a, b);
      DifferentSeconds(b, a);
    }
  }

  // --- the exact condition -----------------------------------------------------------

  // a is earlier than b in the same second and its trimmed fraction is a proper
  // prefix of b's.
  predicate Misread(a: int, b: int) {
    a < b && a / SECOND == b / SECOND && Fraction(a) < Fraction(b)
  }

  // Text order and time order disagree.
  predicate Misordered(a: int, b: int) {
    Misread(a, b) || Misread(b, a)
  }

  // The text order of any two instants, told from the instants: time order but
  // for the misread pairs.
  lemma TextOrderExact(a: int, b: int)
    requires InRange(a) && InRange(b)
    ensures TextBefore(a, b) <==> (a < b && !Misread(a, b)) || Misread(b, a)
    ensures (TextBefore(a, b) <==> a < b) <==> !Misordered(a, b)
  {
    hide TextBefore, Fraction;
    if a == b {
      NotBeforeItself(a);
    } else if a / SECOND != b / SECOND {
      DifferentSeconds(a, b);
    } else if a < b {
      SameSecond(a, b);
    } else {
      SameSecond(b, a);
    }
  }

  lemma NotBeforeItself(a: int)
    ensures !TextBefore(a, a)
  {
    LessIrreflexive(FormatTime(a));
  }

  lemma {:induction false} ZerosTrim(w: nat)
    ensures Trim(Pad(w, 0)) == ""
  {
    if w > 0 {
      ZerosTrim(w - 1);
      TrimZero(Pad(w - 1, 0));
    }
  }

  lemma {:induction false} TrimZero(s: string)
    ensures Trim(s + "0") == Trim(s)
  {
    if s == [] {
      assert s + "0" == "0" && "0"[1..] == "";
    } else {
      assert (s + "0")[1..] == s[1..] + "0";
      TrimZero(s[1..]);
    }
  }

  // A whole second is misread by everything later in its second and by nothing
  // else.
  lemma WholeSecondMisread(a: int, b: int)
    requires a % SECOND == 0
    ensures Misread(a, b) <==> a < b < a + SECOND
    ensures !Misread(b, a)
  {
    hide Fraction;
    assert Fraction(a) == "" by { WholeFraction(a); }
    if a < b < a + SECOND {
      FractionsDiffer(a, b);
    }
  }

  lemma WholeFraction(a: int)
    requires a % SECOND == 0
    ensures Fraction(a) == ""
  {
    ZerosTrim(9);
  }

  // --- date texts -----------------------------------------------------------------------

  const DATE_WIDTHS: seq<nat> := [4, 2, 2]
  const DATE_SEPARATORS: seq<string> := ["-", "-", ""]

  function DateFields(day: int): seq<nat>
    requires 0 <= YearOf(day)
  {
    DayFromStart(day);
    [CivilOf(day).year, CivilOf(day).month, CivilOf(day).day]
  }

  lemma DateTextJoins(day: int)
    requires 0 <= YearOf(day) < 10_000
    ensures DateText(day) == Joined(DATE_WIDTHS, DATE_SEPARATORS, DateFields(day))
    ensures Fits(DATE_WIDTHS, DateFields(day))
  {
    hide CivilOf, YearOf, YearStart, MonthStart, Leap, Power10, Pad;
    var f := DateFields(day);
    SmallPowers();
    DayInMonth(day);
    JoinedThree(f);
  }

  lemma JoinedThree(f: seq<nat>)
    requires |f| == 3
    ensures Joined(DATE_WIDTHS, DATE_SEPARATORS, f)
            == Pad(4, f[0]) + ("-" + (Pad(2, f[1]) + ("-" + Pad(2, f[2]))))
  {
    hide Pad;
    assert f[1..] == [f[1], f[2]];
    assert Joined([2, 2], ["-", ""], [f[1], f[2]]) == Pad(2, f[1]) + ("-" + Joined([2], [""], [f[2]]));
    assert Joined([2], [""], [f[2]]) == Pad(2, f[2]);
  }

  lemma DateFieldsOrder(d: int, e: int)
    requires 0 <= YearOf(d) && 0 <= YearOf(e) && d < e
    ensures NatsLess(DateFields(d), DateFields(e))
  {
    hide CivilOf, YearOf, Leap, YearStart, MonthStart, NatsLess;
    var a, b := CivilOf(d), CivilOf(e);
    CivilOrder(d, e);
    LessAt(DateFields(d), DateFields(e), if a.year < b.year then 0 else if a.month < b.month then 1 else 2);
  }

  // Dates of four-digit years compare as text as the days they name.
  lemma DateTextOrder(d: int, e: int)
    requires 0 <= d < YearStart(10_000) && 0 <= e < YearStart(10_000)
    ensures TextLess(DateText(d), DateText(e)) <==> d < e
    ensures DateText(d) == DateText(e) <==> d == e
  {
    hide YearStart, YearOf, DateText, Fits, NatsLess, Joined, CivilOf;
    YearInRange(d);
    YearInRange(e);
    DateTextJoins(d);
    DateTextJoins(e);
    JoinedOrder(DATE_WIDTHS, DATE_SEPARATORS, DateFields(d), DateFields(e));
    if d < e {
      DateFieldsOrder(d, e);
      NatsLessAsymmetric(DateFields(e), DateFields(d));
    } else if e < d {
      DateFieldsOrder(e, d);
      NatsLessAsymmetric(DateFields(d), DateFields(e));
    } else {
      NatsLessIrreflexive(DateFields(d));
    }
  }
}
