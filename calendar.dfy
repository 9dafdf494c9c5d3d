/** UTC civil time on the proleptic Gregorian calendar, as Python's `datetime` keeps it, and the
  * three fixed `strftime` layouts the handlers use: `%Y%m%dT%H%M%SZ`, `%Y%m%dT%H%M%S` and
  * `%Y%m%d-%H%M%S`. Epoch seconds are counted from 1970-01-01T00:00:00Z. */
module Calendar {
  import opened Wrappers
  import opened Text

  predicate IsLeap(y: int) {
    y % 4 == 0 && (y % 100 != 0 || y % 400 == 0)
  }

  function YearDays(y: int): nat {
    if IsLeap(y) then 366 else 365
  }

  function MonthDays(y: int, m: int): nat
    requires 1 <= m <= 12
  {
    if m == 2 then (if IsLeap(y) then 29 else 28)
    else if m == 4 || m == 6 || m == 9 || m == 11 then 30
    else 31
  }

  /** Days from 0001-01-01 to the first of January of year `y` (`date(y, 1, 1).toordinal() - 1`). */
  function Ordinal(y: int): int
    requires y >= 1
  {
    365 * (y - 1) + (y - 1) / 4 - (y - 1) / 100 + (y - 1) / 400
  }

  /** Days from 1970-01-01 to the first of January of year `y` (negative before 1970). */
  function DaysBeforeYear(y: int): int
    requires y >= 1
  {
    Ordinal(y) - 719162
  }

  lemma DivStep4(n: int) ensures n / 4 - (n - 1) / 4 == if n % 4 == 0 then 1 else 0 {}
  lemma DivStep100(n: int) ensures n / 100 - (n - 1) / 100 == if n % 100 == 0 then 1 else 0 {}
  lemma DivStep400(n: int) ensures n / 400 - (n - 1) / 400 == if n % 400 == 0 then 1 else 0 {}
  lemma CenturyLeap(y: int) ensures (y % 100 == 0 ==> y % 4 == 0) && (y % 400 == 0 ==> y % 100 == 0) {}

  /** Consecutive years are `YearDays` apart. */
  lemma YearStep(y: int)
    requires y >= 1
    ensures DaysBeforeYear(y + 1) == DaysBeforeYear(y) + YearDays(y)
  {
    DivStep4(y);
    DivStep100(y);
    DivStep400(y);
    CenturyLeap(y);
  }

  lemma {:induction false} YearsApart(a: int, b: int)
    requires 1 <= a
    ensures a < b ==> DaysBeforeYear(a) + YearDays(a) <= DaysBeforeYear(b)
    decreases b - a
  {
    if a < b {
      YearStep(a);
      if a + 1 < b {
        YearsApart(a + 1, b);
        YearStep(a + 1);
      }
    }
  }

  /** Days from the first of January to the first of month `m` of year `y`. */
  function DaysBeforeMonth(y: int, m: int): nat
    requires 1 <= m <= 13
    decreases m
  {
    if m == 1 then 0 else DaysBeforeMonth(y, m - 1) + MonthDays(y, m - 1)
  }

  lemma WholeYear(y: int)
    ensures DaysBeforeMonth(y, 13) == YearDays(y)
  {
  }

  lemma {:induction false} MonthsApart(y: int, a: int, b: int)
    requires 1 <= a <= 12 && a < b <= 13
    ensures DaysBeforeMonth(y, a) + MonthDays(y, a) <= DaysBeforeMonth(y, b)
    decreases b - a
  {
    if a + 1 < b { MonthsApart(y, a + 1, b); }
  }

  // ---------------------------------------------------------------- civil time

  datatype DateTime = DateTime(year: int, month: int, day: int, hour: int, minute: int, second: int)

  /** The values Python's `datetime` constructor accepts (no leap seconds). */
  predicate Valid(t: DateTime) {
    1 <= t.year <= 9999 && 1 <= t.month <= 12 && 1 <= t.day <= MonthDays(t.year, t.month)
    && 0 <= t.hour < 24 && 0 <= t.minute < 60 && 0 <= t.second < 60
  }

  /** `t.replace(tzinfo=timezone.utc).timestamp()`. */
  function ToEpoch(t: DateTime): int
    requires Valid(t)
  {
    (DaysBeforeYear(t.year) + DaysBeforeMonth(t.year, t.month) + t.day - 1) * 86400
    + t.hour * 3600 + t.minute * 60 + t.second
  }

  /** Chronological order of two instants, field by field. */
  predicate Before(a: DateTime, b: DateTime) {
    a.year < b.year
    || (a.year == b.year && (a.month < b.month
    || (a.month == b.month && (a.day < b.day
    || (a.day == b.day && (a.hour < b.hour
    || (a.hour == b.hour && (a.minute < b.minute
    || (a.minute == b.minute && a.second < b.second)))))))))
  }

  lemma BeforeTrichotomy(a: DateTime, b: DateTime)
    ensures a == b || Before(a, b) || Before(b, a)
  {
  }

  /** Field order is epoch order. */
  lemma EpochOrder(a: DateTime, b: DateTime)
    requires Valid(a) && Valid(b)
    ensures Before(a, b) ==> ToEpoch(a) < ToEpoch(b)
  {
    if a.year < b.year {
      YearsApart(a.year, b.year);
      MonthsApart(a.year, a.month, 13);
    } else if a.year == b.year && a.month < b.month {
      MonthsApart(a.year, a.month, b.month);
    }
  }

  /** A year-search from `y` upwards for the year that holds day number `d`. */
  function YearOf(y: int, d: int): (r: int)
    requires 1970 <= y && DaysBeforeYear(y) <= d
    ensures y <= r && DaysBeforeYear(r) <= d < DaysBeforeYear(r) + YearDays(r)
    decreases d - DaysBeforeYear(y)
  {
    YearStep(y);
    if d < DaysBeforeYear(y) + YearDays(y) then y else YearOf(y + 1, d)
  }

  /** The month of year `y` that holds day `d` of that year, searching from month `m`. */
  function MonthOf(y: int, m: int, d: int): (r: int)
    requires 1 <= m <= 12 && DaysBeforeMonth(y, m) <= d < YearDays(y)
    ensures m <= r <= 12 && DaysBeforeMonth(y, r) <= d < DaysBeforeMonth(y, r) + MonthDays(y, r)
    decreases 12 - m
  {
    if d < DaysBeforeMonth(y, m) + MonthDays(y, m) then m
    else
      assert m < 12 by { WholeYear(y); }
      MonthOf(y, m + 1, d)
  }

  /** The first epoch second of year 10000, past which `datetime` cannot go. */
  const EpochLimit: int := (Ordinal(10000) - 719162) * 86400

  /** `datetime.utcfromtimestamp(e)` for an instant from 1970 up to the end of year 9999. */
  function FromEpoch(e: int): (t: DateTime)
    requires 0 <= e < EpochLimit
    ensures Valid(t) && ToEpoch(t) == e
    ensures t.second == e % 60
  {
    var secs, m1 := e % 60, e / 60;
    var mins, h1 := m1 % 60, m1 / 60;
    var hours, days := h1 % 24, h1 / 24;
    var y := YearOf(1970, days);
    assert y <= 9999 by { YearsApart(10000, y); }
    var mo := MonthOf(y, 1, days - DaysBeforeYear(y));
    DateTime(y, mo, days - DaysBeforeYear(y) - DaysBeforeMonth(y, mo) + 1, hours, mins, secs)
  }

  /** Distinct valid instants have distinct epochs, and the epoch order is the field order. */
  lemma FromEpochMonotone(e1: int, e2: int)
    requires 0 <= e1 < e2 < EpochLimit
    ensures Before(FromEpoch(e1), FromEpoch(e2))
  {
    var t1, t2 := FromEpoch(e1), FromEpoch(e2);
    BeforeTrichotomy(t1, t2);
    EpochOrder(t2, t1);
  }

  // ---------------------------------------------------------------- rendering and parsing

  /** `%Y%m%d`: the year is written with four digits. */
  function DatePart(t: DateTime): (r: string)
    requires Valid(t)
  {
    PadDigits(t.year, 4) + PadDigits(t.month, 2) + PadDigits(t.day, 2)
  }

  /** `%H%M%S`. */
  function TimePart(t: DateTime): (r: string)
    requires Valid(t)
  {
    PadDigits(t.hour, 2) + PadDigits(t.minute, 2) + PadDigits(t.second, 2)
  }

  /** `strftime('%Y%m%d' + sep + '%H%M%S' + suffix)`. */
  function Stamp(t: DateTime, sep: string, suffix: string): (r: string)
    requires Valid(t)
  {
    DatePart(t) + sep + TimePart(t) + suffix
  }

  /** Three fields of equal widths compare, as one string, field by field. */
  lemma FieldsOrder(x1: string, x2: string, x3: string, y1: string, y2: string, y3: string)
    requires |x1| == |y1| && |x2| == |y2|
    requires LexLess(x1, y1) || (x1 == y1 && (LexLess(x2, y2) || (x2 == y2 && LexLess(x3, y3))))
    ensures LexLess(x1 + x2 + x3, y1 + y2 + y3)
  {
    assert x1 + x2 + x3 == x1 + (x2 + x3) && y1 + y2 + y3 == y1 + (y2 + y3);
    if !LexLess(x1, y1) {
      LexLessConcat(x2, x3, y2, y3);
    }
    LexLessConcat(x1, x2 + x3, y1, y2 + y3);
  }

  /** The date and the time parts each compare like the fields they hold. */
  lemma PartsOrder(a: DateTime, b: DateTime)
    requires Valid(a) && Valid(b)
    ensures (a.year, a.month, a.day) != (b.year, b.month, b.day) && Before(a, b) ==> LexLess(DatePart(a), DatePart(b))
    ensures (a.year, a.month, a.day) == (b.year, b.month, b.day) ==> DatePart(a) == DatePart(b)
    ensures (a.year, a.month, a.day) == (b.year, b.month, b.day) && Before(a, b) ==> LexLess(TimePart(a), TimePart(b))
  {
    if a.year < b.year { PadDigitsOrder(a.year, b.year, 4); }
    if a.month < b.month { PadDigitsOrder(a.month, b.month, 2); }
    if a.day < b.day { PadDigitsOrder(a.day, b.day, 2); }
    if a.hour < b.hour { PadDigitsOrder(a.hour, b.hour, 2); }
    if a.minute < b.minute { PadDigitsOrder(a.minute, b.minute, 2); }
    if a.second < b.second { PadDigitsOrder(a.second, b.second, 2); }
    var yA, mA, dA := PadDigits(a.year, 4), PadDigits(a.month, 2), PadDigits(a.day, 2);
    var yB, mB, dB := PadDigits(b.year, 4), PadDigits(b.month, 2), PadDigits(b.day, 2);
    var hA, iA, sA := PadDigits(a.hour, 2), PadDigits(a.minute, 2), PadDigits(a.second, 2);
    var hB, iB, sB := PadDigits(b.hour, 2), PadDigits(b.minute, 2), PadDigits(b.second, 2);
    if Before(a, b) {
      if (a.year, a.month, a.day) != (b.year, b.month, b.day) {
        FieldsOrder(yA, mA, dA, yB, mB, dB);
      } else {
        FieldsOrder(hA, iA, sA, hB, iB, sB);
      }
    }
  }

  /** Two stamps of the same layout compare as strings the way the instants compare in time. */
  lemma StampOrder(a: DateTime, b: DateTime, sep: string, suffix: string)
    requires Valid(a) && Valid(b) && Before(a, b)
    ensures LexLess(Stamp(a, sep, suffix), Stamp(b, sep, suffix))
  {
    var da, db, ta, tb := DatePart(a), DatePart(b), TimePart(a), TimePart(b);
    assert Stamp(a, sep, suffix) == da + (sep + (ta + suffix));
    assert Stamp(b, sep, suffix) == db + (sep + (tb + suffix));
    PartsOrder(a, b);
    if (a.year, a.month, a.day) == (b.year, b.month, b.day) {
      LexLessConcat(ta, suffix, tb, suffix);
      LexLessConcat(sep, ta + suffix, sep, tb + suffix);
    }
    LexLessConcat(da, sep + (ta + suffix), db, sep + (tb + suffix));
  }

  /** `datetime.strptime(s, '%Y%m%d-%H%M%S')` on the zero-padded layout that `strftime` writes:
    * `None` stands for the `ValueError` it raises. */
  function ParseStamp(s: string): (r: Option<DateTime>)
    ensures r.Some? ==> Valid(r.value)
  {
    if |s| != 15 || s[8] != '-' || !AllDigits(s[..8]) || !AllDigits(s[9..]) then None
    else
      var t := DateTime(DigitsValue(s[..8][..4]), DigitsValue(s[..8][4..6]), DigitsValue(s[..8][6..]),
                        DigitsValue(s[9..][..2]), DigitsValue(s[9..][2..4]), DigitsValue(s[9..][4..]));
      if Valid(t) then Some(t) else None
  }

  lemma FieldsParts(a: string, b: string, c: string)
    requires |a| == 4 || |a| == 2
    requires |b| == 2 && |c| == 2
    ensures (a + b + c)[..|a|] == a && (a + b + c)[|a|..|a| + 2] == b && (a + b + c)[|a| + 2..] == c
  {
  }

  /** The parser reads back what `strftime('%Y%m%d-%H%M%S')` writes. */
  lemma ParseStampRoundTrip(t: DateTime)
    requires Valid(t)
    ensures ParseStamp(Stamp(t, "-", "")) == Some(t)
  {
    var d, h := DatePart(t), TimePart(t);
    var s := Stamp(t, "-", "");
    assert s == d + "-" + h;
    assert s[..8] == d && s[8] == '-' && s[9..] == h;
    DateDigits(t);
    TimeDigits(t);
  }

  /** The date part reads back as its three fields. */
  lemma DateDigits(t: DateTime)
    requires Valid(t)
    ensures var d := DatePart(t);
      && |d| == 8 && AllDigits(d)
      && DigitsValue(d[..4]) == t.year && DigitsValue(d[4..6]) == t.month && DigitsValue(d[6..]) == t.day
  {
    FieldsParts(PadDigits(t.year, 4), PadDigits(t.month, 2), PadDigits(t.day, 2));
    PadDigitsRoundTrip(t.year, 4);
    PadDigitsRoundTrip(t.month, 2);
    PadDigitsRoundTrip(t.day, 2);
  }

  /** The time part reads back as its three fields. */
  lemma TimeDigits(t: DateTime)
    requires Valid(t)
    ensures var h := TimePart(t);
      && |h| == 6 && AllDigits(h)
      && DigitsValue(h[..2]) == t.hour && DigitsValue(h[2..4]) == t.minute && DigitsValue(h[4..]) == t.second
  {
    FieldsParts(PadDigits(t.hour, 2), PadDigits(t.minute, 2), PadDigits(t.second, 2));
    PadDigitsRoundTrip(t.hour, 2);
    PadDigitsRoundTrip(t.minute, 2);
    PadDigitsRoundTrip(t.second, 2);
  }
}
