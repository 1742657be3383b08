// Reading stored timestamps back: the text written for an instant names that
// instant and no other.
module TimeParse {
  import opened TimeText

  // A decimal digit's value; anything else is 0.
  function DigitValue(c: char): nat {
    if '0' <= c <= '9' then (c as int) - ('0' as int) else 0
  }

  function Value(s: string): nat {
    if s == [] then 0 else 10 * Value(s[..|s| - 1]) + DigitValue(s[|s| - 1])
  }

  // A fraction of a second in nanoseconds; digits dropped at its end are zeros.
  function Nanos(fraction: string): nat
    requires |fraction| <= 9
  {
    Value(fraction) * Power10(9 - |fraction|)
  }

  // The instant named by a UTC date and time of day.
  function Instant(year: nat, month: nat, day: int, hour: nat, minute: nat, second: nat, nanos: nat): int
    requires 1 <= month <= 12
  {
    (YearStart(year) + MonthStart(Leap(year), month) + day - 1) * DAY
    + (hour * 3_600 + minute * 60 + second) * SECOND + nanos
  }

  // parseTime on "2006-01-02T15:04:05Z" with an optional fraction before the Z;
  // text of another shape reads as the zero time.
  function ParseTime(s: string): int {
    if |s| < 20 || 30 < |s| || s[|s| - 1] != 'Z' || !(1 <= Value(s[5..7]) <= 12) then ZERO_TIME
    else
      var fraction := if |s| == 20 then "" else s[20..|s| - 1];
      Instant(Value(s[..4]), Value(s[5..7]), Value(s[8..10]), Value(s[11..13]), Value(s[14..16]), Value(s[17..19]),
              Nanos(fraction))
  }

  // --- numbers -------------------------------------------------------------------

  lemma DigitReads(n: int)
    requires 0 <= n < 10
    ensures DigitValue(Digit(n)) == n
  {
  }

  lemma {:induction false} PadReads(w: nat, n: nat)
    requires n < Power10(w)
    ensures Value(Pad(w, n)) == n
  {
    if w > 0 {
      PadReads(w - 1, n / 10);
      DigitReads(n % 10);
      assert Pad(w, n)[..w - 1] == Pad(w - 1, n / 10);
    }
  }

  lemma PowersMultiply(k: nat, x: nat)
    ensures Power10(k + 1) * x == 10 * (Power10(k) * x)
  {
  }

  lemma OnePlaceOn(d: nat, p: nat, v: nat, e: nat)
    ensures 10 * (d * p + v) + e == d * (10 * p) + (10 * v + e)
  {
  }

  lemma NextPower(k: nat)
    ensures Power10(k + 1) == 10 * Power10(k)
  {
  }

  lemma {:induction false} ValueFromFront(c: char, s: string)
    ensures Value([c] + s) == DigitValue(c) * Power10(|s|) + Value(s)
  {
    hide Power10, DigitValue;
    if s == [] {
      assert ([c] + s)[..0] == [];
      assert Power10(0) == 1 by { NoPlaces(); }
    } else {
      var n := |s| - 1;
      ValueFromFront(c, s[..n]);
      assert ([c] + s)[..|s|] == [c] + s[..n];
      NextPower(n);
      OnePlaceOn(DigitValue(c), Power10(n), Value(s[..n]), DigitValue(s[n]));
    }
  }

  lemma NoPlaces()
    ensures Power10(0) == 1
  {
  }

  lemma Spread(d: nat, p: nat, v: nat, q: nat)
    ensures (d * p + v) * q == d * (p * q) + v * q
  {
  }

  // Trailing zeros carry no value.
  lemma {:induction false} TrimReads(s: string)
    ensures |Trim(s)| <= |s| && Value(Trim(s)) * Power10(|s| - |Trim(s)|) == Value(s)
  {
    hide Power10, Value, DigitValue;
    if s == [] {
      NothingReads();
    } else {
      TrimReads(s[1..]);
      assert s == [s[0]] + s[1..];
      ValueFromFront(s[0], s[1..]);
      var rest, gap := Trim(s[1..]), |s| - 1 - |Trim(s[1..])|;
      NothingReads();
      if !(rest == [] && s[0] == '0') {
        ValueFromFront(s[0], rest);
        PowersAdd(|rest|, gap);
        Spread(DigitValue(s[0]), Power10(|rest|), Value(rest), Power10(gap));
        assert |Trim(s)| == 1 + |rest|;
      }
    }
  }

  lemma NothingReads()
    ensures Value([]) == 0 && DigitValue('0') == 0
  {
  }

  lemma {:induction false} PowersAdd(a: nat, b: nat)
    ensures Power10(a) * Power10(b) == Power10(a + b)
  {
    if a > 0 {
      PowersAdd(a - 1, b);
      PowersMultiply(a - 1, Power10(b));
    }
  }

  // --- the fields --------------------------------------------------------------------

  lemma YearReads(y: nat)
    requires y < 10_000
    ensures |YearText(y)| == 4 && Value(YearText(y)) == y
  {
    PadReads(4, y) by { assert Power10(4) == 10_000 by { SmallPowers(); } }
  }

  lemma TwoDigits(n: nat)
    requires n < 100
    ensures |Pad(2, n)| == 2 && Value(Pad(2, n)) == n
  {
    SmallPowers();
    PadReads(2, n);
  }

  // Month to second of the text after the year.
  lemma JoinedFields(f: seq<nat>)
    requires |f| == 5
    ensures Joined(WIDTHS[1..], SEPARATORS[1..], f)
            == Pad(2, f[0]) + ("-" + (Pad(2, f[1]) + ("T" + (Pad(2, f[2]) + (":" + (Pad(2, f[3]) + (":" + Pad(2, f[4]))))))))
  {
    hide Pad;
    assert WIDTHS[1..] == [2, 2, 2, 2, 2] && SEPARATORS[1..] == ["-", "T", ":", ":", ""];
    assert f[1..] == [f[1], f[2], f[3], f[4]];
    assert Joined([2], [""], [f[4]]) == Pad(2, f[4]);
    assert Joined([2, 2], [":", ""], [f[3], f[4]]) == Pad(2, f[3]) + (":" + Joined([2], [""], [f[4]]));
    assert Joined([2, 2, 2], [":", ":", ""], [f[2], f[3], f[4]])
        == Pad(2, f[2]) + (":" + Joined([2, 2], [":", ""], [f[3], f[4]]));
    assert Joined([2, 2, 2, 2], ["T", ":", ":", ""], [f[1], f[2], f[3], f[4]])
        == Pad(2, f[1]) + ("T" + Joined([2, 2, 2], [":", ":", ""], [f[2], f[3], f[4]]));
  }

  lemma Middle(a: string, b: string, c: string)
    ensures (a + (b + c))[|a|..|a| + |b|] == b
  {
  }

  // A text of fields, taken apart where its fields are.
  ghost predicate Apart(s: string, y: string, mo: string, d: string, h: string, mi: string, se: string, tail: string) {
    && |y| == 4 && |mo| == |d| == |h| == |mi| == |se| == 2
    && s == (y + ("-" + (mo + ("-" + (d + ("T" + (h + (":" + (mi + (":" + se)))))))))) + tail
  }

  lemma FirstFields(s: string, y: string, mo: string, d: string, h: string, mi: string, se: string, tail: string)
    requires Apart(s, y, mo, d, h, mi, se, tail)
    ensures |s| == 19 + |tail| && s[..4] == y && s[5..7] == mo && s[8..10] == d
  {
    var clock := "T" + (h + (":" + (mi + (":" + (se + tail)))));
    assert s == y + ("-" + (mo + ("-" + (d + clock))));
    FieldAt(s, y + "-", mo, "-" + (d + clock));
    FieldAt(s, y + ("-" + (mo + "-")), d, clock);
  }

  lemma LastFields(s: string, y: string, mo: string, d: string, h: string, mi: string, se: string, tail: string)
    requires Apart(s, y, mo, d, h, mi, se, tail)
    ensures |s| == 19 + |tail| && s[11..13] == h && s[14..16] == mi && s[17..19] == se && s[19..] == tail
  {
    var date := y + ("-" + (mo + ("-" + (d + "T"))));
    assert |date| == 11 && s == date + (h + (":" + (mi + (":" + (se + tail)))));
    FieldAt(s, date, h, ":" + (mi + (":" + (se + tail))));
    FieldAt(s, date + (h + ":"), mi, ":" + (se + tail));
    FieldAt(s, date + (h + (":" + (mi + ":"))), se, tail);
  }

  lemma FieldAt(s: string, a: string, b: string, c: string)
    requires s == a + (b + c)
    ensures |a| + |b| <= |s| && s[|a|..|a| + |b|] == b
  {
    Middle(a, b, c);
  }

  lemma FormatApart(t: int)
    requires InRange(t)
    ensures var c, s := CivilOf(t / SECOND / 86_400), t / SECOND % 86_400;
            && 0 <= c.year && 1 <= c.day
            && Apart(FormatTime(t), YearText(c.year), Pad(2, c.month), Pad(2, c.day), Pad(2, s / 3_600),
                     Pad(2, s / 60 % 60), Pad(2, s % 60), FractionText(t) + "Z")
  {
    hide CivilOf, YearOf, YearStart, MonthStart, Leap, YearText, Pad, FractionText, Joined;
    var second := t / SECOND;
    InRangeYear(t);
    DayFromStart(second / 86_400);
    YearIsFour(CivilOf(second / 86_400).year);
    JoinedFields(ClockFields(second));
  }

  lemma YearIsFour(y: int)
    requires 0 <= y < 10_000
    ensures |YearText(y)| == 4
  {
  }

  lemma SecondsOfDay(s: int)
    requires 0 <= s < 86_400
    ensures 0 <= s / 3_600 < 24 && 0 <= s / 60 % 60 < 60 && 0 <= s % 60 < 60
    ensures s / 3_600 * 3_600 + s / 60 % 60 * 60 + s % 60 == s
  {
  }

  // The clock and the fraction of a second read back.
  lemma ClockReads(t: int, s: int)
    requires s == t / SECOND % 86_400
    ensures Value(Pad(2, s / 3_600)) * 3_600 + Value(Pad(2, s / 60 % 60)) * 60 + Value(Pad(2, s % 60)) == s
  {
    hide Value, Pad;
    SecondsOfDay(s);
    TwoDigits(s / 3_600);
    TwoDigits(s / 60 % 60);
    TwoDigits(s % 60);
  }

  lemma FractionReads(t: int)
    ensures |Fraction(t)| <= 9 && Nanos(Fraction(t)) == t % SECOND
  {
    hide Value, Pad, Trim, Power10;
    NinePlaces();
    PadReads(9, t % SECOND);
    TrimReads(Pad(9, t % SECOND));
  }

  lemma DateReads(t: int)
    requires InRange(t)
    ensures var c := CivilOf(t / SECOND / 86_400);
            && 0 <= c.year && 1 <= c.day && Value(YearText(c.year)) == c.year
            && Value(Pad(2, c.month)) == c.month && Value(Pad(2, c.day)) == c.day
  {
    hide CivilOf, YearOf, YearStart, MonthStart, Leap, YearText, Pad, Value;
    var c := CivilOf(t / SECOND / 86_400);
    InRangeYear(t);
    DayInMonth(t / SECOND / 86_400);
    YearReads(c.year);
    TwoDigits(c.month);
    TwoDigits(c.day);
  }

  // What was stored is what is read back, to the nanosecond.
  lemma StoredTimeReadsBack(t: int)
    requires InRange(t)
    ensures ParseTime(FormatTime(t)) == t
  {
    hide CivilOf, YearOf, YearStart, MonthStart, Leap, YearText, Pad, Value, Fraction, FormatTime, Apart, Nanos;
    var text, c, s := FormatTime(t), CivilOf(t / SECOND / 86_400), t / SECOND % 86_400;
    FormatApart(t);
    FirstFields(text, YearText(c.year), Pad(2, c.month), Pad(2, c.day), Pad(2, s / 3_600), Pad(2, s / 60 % 60),
                Pad(2, s % 60), FractionText(t) + "Z");
    LastFields(text, YearText(c.year), Pad(2, c.month), Pad(2, c.day), Pad(2, s / 3_600), Pad(2, s / 60 % 60),
               Pad(2, s % 60), FractionText(t) + "Z");
    DateReads(t);
    ClockReads(t, s);
    FractionReads(t);
    assert text[|text| - 1] == 'Z' by { assert text[19..][|text| - 20] == 'Z'; }
    assert |text| != 20 ==> text[20..|text| - 1] == Fraction(t);
    assert |text| == 20 ==> Fraction(t) == "";
    WholeTime(t);
  }

  lemma WholeTime(t: int)
    ensures t / SECOND / 86_400 * DAY + t / SECOND % 86_400 * SECOND + t % SECOND == t
  {
  }

  lemma OneDigit(s: string)
    requires |s| == 1
    ensures Value(s) == DigitValue(s[0])
  {
    hide DigitValue;
    assert s[..0] == [];
  }

  lemma TwoDigitText(s: string)
    requires |s| == 2
    ensures Value(s) == 10 * DigitValue(s[0]) + DigitValue(s[1])
  {
    hide DigitValue;
    OneDigit(s[..1]);
  }

  lemma FourDigitText(s: string)
    requires |s| == 4
    ensures Value(s) == 10 * (10 * (10 * DigitValue(s[0]) + DigitValue(s[1])) + DigitValue(s[2])) + DigitValue(s[3])
  {
    hide DigitValue;
    assert s[..3][..2] == s[..2];
    TwoDigitText(s[..2]);
    assert Value(s[..3]) == 10 * Value(s[..2]) + DigitValue(s[2]);
  }

  // The time no submission may carry is the first instant of year one.
  lemma ZeroTimeIsYearOne()
    ensures ParseTime("0001-01-01T00:00:00Z") == ZERO_TIME == Instant(1, 1, 1, 0, 0, 0, 0)
  {
    hide Value, YearStart, MonthStart, Leap;
    var s := "0001-01-01T00:00:00Z";
    FourDigitText(s[..4]);
    TwoDigitText(s[5..7]);
    TwoDigitText(s[8..10]);
    TwoDigitText(s[11..13]);
    TwoDigitText(s[14..16]);
    TwoDigitText(s[17..19]);
    assert Nanos("") == 0 by { assert Value("") == 0 by { NothingReads(); } }
    FirstDay();
  }

  lemma FirstDay()
    ensures YearStart(1) + MonthStart(Leap(1), 1) == 366
  {
  }

  // The date hours are reported under is the head of the record's timestamp.
  lemma DateHeadsTime(t: int)
    requires InRange(t)
    ensures |FormatTime(t)| >= 20 && DateText(t / DAY) == FormatTime(t)[..10]
  {
    hide CivilOf, YearOf, YearStart, MonthStart, Leap, YearText, Pad, FractionText, FormatTime;
    FormatApart(t);
    assert t / SECOND / 86_400 == t / DAY;
  }

  // So two instants are never stored as one text.
  lemma TextsAreDistinct(a: int, b: int)
    requires InRange(a) && InRange(b) && FormatTime(a) == FormatTime(b)
    ensures a == b
  {
    hide FormatTime, ParseTime;
    StoredTimeReadsBack(a);
    StoredTimeReadsBack(b);
  }
}
