/** Proleptic Gregorian dates as Python's `date` sees them. A date is
    handled as its ordinal (0001-01-01 is day 1, as in date.toordinal());
    conversion to year/month/day goes through Date. Python only admits
    years 1 to 9999; ordinals beyond are still converted, so that day
    arithmetic on the database side needs no range check. */
module Calendar {
  import opened Wrappers
  import opened Text

  const MaxYear := 9999

  predicate IsLeap(y: int) { y % 4 == 0 && (y % 100 != 0 || y % 400 == 0) }

  function DaysInYear(y: int): int { if IsLeap(y) then 366 else 365 }

  function DaysInMonth(y: int, m: int): int
    requires 1 <= m <= 12
  {
    if m == 2 then (if IsLeap(y) then 29 else 28)
    else if m == 4 || m == 6 || m == 9 || m == 11 then 30
    else 31
  }

  /** Days of year y before the first of month m. */
  function DaysBeforeMonth(y: int, m: int): int
    requires 1 <= m <= 12
  {
    var common :=
      if m == 1 then 0 else if m == 2 then 31 else if m == 3 then 59
      else if m == 4 then 90 else if m == 5 then 120 else if m == 6 then 151
      else if m == 7 then 181 else if m == 8 then 212 else if m == 9 then 243
      else if m == 10 then 273 else if m == 11 then 304 else 334;
    common + (if m > 2 && IsLeap(y) then 1 else 0)
  }

  datatype Date = Date(year: int, month: int, day: int)

  /** A real day of the proleptic Gregorian calendar. */
  predicate IsCivil(d: Date)
  {
    d.year >= 1 && 1 <= d.month <= 12 && 1 <= d.day <= DaysInMonth(d.year, d.month)
  }

  /** A day Python's `date` can hold. */
  predicate InRange(d: Date) { IsCivil(d) && d.year <= MaxYear }

  function DaysBeforeYear(y: int): nat
    requires y >= 1
  {
    if y == 1 then 0 else DaysBeforeYear(y - 1) + DaysInYear(y - 1)
  }

  function ToOrdinal(d: Date): int
    requires IsCivil(d)
  {
    DaysBeforeYear(d.year) + DaysBeforeMonth(d.year, d.month) + d.day
  }

  /** date.max.toordinal(): the last day of year 9999. */
  const MaxOrdinal := 3652059

  /** Days before year y, counted in closed form: 365 a year plus the leap days. */
  lemma {:induction false} DaysBeforeYearClosed(y: int)
    requires y >= 1
    ensures DaysBeforeYear(y) == 365 * (y - 1) + (y - 1) / 4 - (y - 1) / 100 + (y - 1) / 400
  {
    if y > 1 {
      DaysBeforeYearClosed(y - 1);
      var q := y - 1;
      CountStep(q, 4);
      CountStep(q, 100);
      CountStep(q, 400);
      LeapDivisors(q);
    }
  }

  /** A multiple of 400 is one of 100, and a multiple of 100 one of 4. */
  lemma LeapDivisors(q: int)
    ensures q % 400 == 0 ==> q % 100 == 0
    ensures q % 100 == 0 ==> q % 4 == 0
  {
    if q % 400 == 0 {
      DivStep(q, 100, 4 * (q / 400), 0);
    }
    if q % 100 == 0 {
      DivStep(q, 4, 25 * (q / 100), 0);
    }
  }

  /** Going from q - 1 to q adds one multiple of k exactly when k divides q. */
  lemma CountStep(q: int, k: int)
    requires q >= 1 && (k == 4 || k == 100 || k == 400)
    ensures q / k - (q - 1) / k == if q % k == 0 then 1 else 0
  {
    if k == 4 {
      var a, r := (q - 1) / 4, (q - 1) % 4;
      if r == 3 { DivStep(q, 4, a + 1, 0); } else { DivStep(q, 4, a, r + 1); }
    } else if k == 100 {
      var a, r := (q - 1) / 100, (q - 1) % 100;
      if r == 99 { DivStep(q, 100, a + 1, 0); } else { DivStep(q, 100, a, r + 1); }
    } else {
      var a, r := (q - 1) / 400, (q - 1) % 400;
      if r == 399 { DivStep(q, 400, a + 1, 0); } else { DivStep(q, 400, a, r + 1); }
    }
  }

  lemma DivStep(x: int, k: int, q: int, r: int)
    requires k == 4 || k == 100 || k == 400
    requires x == k * q + r && 0 <= r < k
    ensures x / k == q && x % k == r
  {
    if k == 4 {
      assert x == 4 * q + r;
    } else if k == 100 {
      assert x == 100 * q + r;
    } else {
      assert x == 400 * q + r;
    }
  }

  /** MaxOrdinal is the number of days up to the end of year 9999. */
  lemma MaxOrdinalEndsMaxYear(y: int)
    requires y == MaxYear + 1
    ensures DaysBeforeYear(y) == MaxOrdinal
  {
    DaysBeforeYearClosed(y);
  }

  /** An ordinal between date.min and date.max. */
  predicate ValidOrdinal(n: int) { 1 <= n <= MaxOrdinal }

  function MonthWalk(y: int, m: int, k: int): (d: Date)
    requires y >= 1 && 1 <= m <= 12 && 1 <= k <= DaysInYear(y) - DaysBeforeMonth(y, m)
    ensures IsCivil(d) && d.year == y
    ensures DaysBeforeMonth(y, d.month) + d.day == DaysBeforeMonth(y, m) + k
    decreases 12 - m
  {
    if k <= DaysInMonth(y, m) then Date(y, m, k)
    else MonthWalk(y, m + 1, k - DaysInMonth(y, m))
  }

  function YearWalk(y: int, k: int): (d: Date)
    requires y >= 1 && k >= 1
    ensures IsCivil(d) && d.year >= y && ToOrdinal(d) == DaysBeforeYear(y) + k
    decreases k
  {
    if k <= DaysInYear(y) then MonthWalk(y, 1, k)
    else YearWalk(y + 1, k - DaysInYear(y))
  }

  /** date.fromordinal(n), extended past year 9999. */
  function FromOrdinal(n: int): (d: Date)
    requires n >= 1
    ensures IsCivil(d) && ToOrdinal(d) == n
  {
    YearWalk(1, n)
  }

  lemma {:induction false} DaysBeforeYearGrows(a: int, b: int)
    requires 1 <= a <= b
    ensures DaysBeforeYear(a) + 365 * (b - a) <= DaysBeforeYear(b)
    decreases b - a
  {
    if a < b {
      DaysBeforeYearGrows(a, b - 1);
    }
  }

  /** Every day of year y lies after the days before y and within y. */
  lemma OrdinalWithinYear(d: Date)
    requires IsCivil(d)
    ensures DaysBeforeYear(d.year) < ToOrdinal(d) <= DaysBeforeYear(d.year + 1)
  {
  }

  lemma MonthsDisjoint(y: int, m1: int, m2: int)
    requires 1 <= m1 < m2 <= 12
    ensures DaysBeforeMonth(y, m1) + DaysInMonth(y, m1) <= DaysBeforeMonth(y, m2)
  {
  }

  /** Distinct days have distinct ordinals. */
  lemma ToOrdinalInjective(d1: Date, d2: Date)
    requires IsCivil(d1) && IsCivil(d2) && ToOrdinal(d1) == ToOrdinal(d2)
    ensures d1 == d2
  {
    OrdinalWithinYear(d1);
    OrdinalWithinYear(d2);
    if d1.year < d2.year {
      DaysBeforeYearGrows(d1.year + 1, d2.year);
    } else if d2.year < d1.year {
      DaysBeforeYearGrows(d2.year + 1, d1.year);
    } else if d1.month < d2.month {
      MonthsDisjoint(d1.year, d1.month, d2.month);
    } else if d2.month < d1.month {
      MonthsDisjoint(d1.year, d2.month, d1.month);
    }
  }

  /** fromordinal(toordinal(d)) == d. */
  lemma FromToOrdinal(d: Date)
    requires IsCivil(d)
    ensures FromOrdinal(ToOrdinal(d)) == d
  {
    OrdinalWithinYear(d);
    ToOrdinalInjective(FromOrdinal(ToOrdinal(d)), d);
  }

  /** An ordinal names a day Python can hold exactly when it is at most date.max. */
  lemma ValidOrdinalInRange(n: int)
    requires n >= 1
    ensures InRange(FromOrdinal(n)) <==> ValidOrdinal(n)
  {
    var d := FromOrdinal(n);
    OrdinalWithinYear(d);
    MaxOrdinalEndsMaxYear(MaxYear + 1);
    if d.year <= MaxYear {
      DaysBeforeYearGrows(d.year + 1, MaxYear + 1);
    } else {
      DaysBeforeYearGrows(MaxYear + 1, d.year);
    }
  }

  lemma InRangeOrdinal(d: Date)
    requires InRange(d)
    ensures ValidOrdinal(ToOrdinal(d))
  {
    FromToOrdinal(d);
    ValidOrdinalInRange(ToOrdinal(d));
  }

  /** date.weekday(): 0 is Monday, 6 is Sunday. */
  function Weekday(n: int): int { (n + 6) % 7 }

  function Jan1(y: int): int
    requires y >= 1
  {
    DaysBeforeYear(y) + 1
  }

  /** The Monday that starts ISO week 1 of year y. */
  function Week1Monday(y: int): int
    requires y >= 1
  {
    var first := Jan1(y);
    var wd := Weekday(first);
    if wd > 3 then first - wd + 7 else first - wd
  }

  /** ISO week 1 starts on a Monday and holds the first Thursday of the year. */
  lemma Week1HoldsFirstThursday(y: int)
    requires y >= 1
    ensures Weekday(Week1Monday(y)) == 0
    ensures Weekday(Week1Monday(y) + 3) == 3
    ensures Jan1(y) <= Week1Monday(y) + 3 <= Jan1(y) + 6
  {
  }

  /** The ISO year has a week 53: it starts on a Thursday, or it is a leap
      year starting on a Wednesday. */
  predicate HasWeek53(y: int)
    requires y >= 1
  {
    Weekday(Jan1(y)) == 3 || (Weekday(Jan1(y)) == 2 && IsLeap(y))
  }

  function WeeksInIsoYear(y: int): int
    requires y >= 1
  {
    if HasWeek53(y) then 53 else 52
  }

  /** The ISO weeks of one year end exactly where week 1 of the next begins. */
  lemma IsoYearLength(y: int)
    requires y >= 1
    ensures Week1Monday(y + 1) == Week1Monday(y) + 7 * WeeksInIsoYear(y)
  {
    var a, d := Jan1(y), DaysInYear(y);
    assert Jan1(y + 1) == a + d;
    WeekdayAfterYear(a, d);
  }

  /** A year of 365 days moves the weekday on by one, a leap year by two. */
  lemma WeekdayAfterYear(n: int, d: int)
    requires d == 365 || d == 366
    ensures 0 <= Weekday(n) < 7
    ensures var s := Weekday(n) + d - 364; Weekday(n + d) == if s >= 7 then s - 7 else s
  {
    var q := (n + 6) / 7;
    assert n + d + 6 == 7 * (q + 52) + (Weekday(n) + d - 364);
  }

  /** date.fromisocalendar(y, w, d) as an ordinal, None where Python raises. */
  function FromIsoCalendar(y: int, w: int, d: int): (r: Option<int>)
    ensures r.Some? ==> ValidOrdinal(r.value) && Weekday(r.value) == d - 1
    ensures r.Some? ==> 1 <= y <= MaxYear && 1 <= d <= 7 && 1 <= w <= WeeksInIsoYear(y)
    ensures r.Some? ==> r.value == Week1Monday(y) + 7 * (w - 1) + (d - 1)
  {
    if !(1 <= y <= MaxYear) then None
    else if !(0 < w < 53) && !(w == 53 && HasWeek53(y)) then None
    else if !(0 < d < 8) then None
    else
      var o := Week1Monday(y) + (w - 1) * 7 + d - 1;
      Week1HoldsFirstThursday(y);
      if ValidOrdinal(o) then Some(o) else None
  }

  /** ISO week w of year y runs from its Monday m to m + 6. */
  lemma FromIsoCalendarOfWeek(y: int, w: int, m: int)
    requires 1 <= y <= MaxYear && 1 <= w <= WeeksInIsoYear(y)
    requires m == Week1Monday(y) + 7 * (w - 1) && ValidOrdinal(m + 6)
    ensures ValidOrdinal(m) && Weekday(m) == 0
    ensures FromIsoCalendar(y, w, 1) == Some(m) && FromIsoCalendar(y, w, 7) == Some(m + 6)
  {
    Week1HoldsFirstThursday(y);
  }

  // ----- fixed-width text forms -----

  function Pad2(n: int): (s: string)
    requires 0 <= n < 100
    ensures |s| == 2 && AllDigits(s)
  {
    [DigitChar(n / 10), DigitChar(n % 10)]
  }

  function Pad4(n: int): (s: string)
    requires 0 <= n < 10000
    ensures |s| == 4 && AllDigits(s)
  {
    [DigitChar(n / 1000), DigitChar(n / 100 % 10), DigitChar(n / 10 % 10), DigitChar(n % 10)]
  }

  function Val2(s: string): int
    requires |s| == 2 && AllDigits(s)
  {
    10 * DigitValue(s[0]) + DigitValue(s[1])
  }

  function Val4(s: string): int
    requires |s| == 4 && AllDigits(s)
  {
    1000 * DigitValue(s[0]) + 100 * DigitValue(s[1]) + 10 * DigitValue(s[2]) + DigitValue(s[3])
  }

  lemma Pad2RoundTrip(n: int, s: string)
    requires 0 <= n < 100 && |s| == 2 && AllDigits(s)
    ensures Val2(Pad2(n)) == n
    ensures Pad2(Val2(s)) == s
  {
    var v := Val2(s);
    assert v / 10 == DigitValue(s[0]) && v % 10 == DigitValue(s[1]);
    assert DigitChar(DigitValue(s[0])) == s[0];
    assert DigitChar(DigitValue(s[1])) == s[1];
  }

  lemma DivModUnique(x: int, k: int, q: int, r: int)
    requires k == 10 || k == 100 || k == 1000
    requires x == k * q + r && 0 <= r < k
    ensures x / k == q && x % k == r
  {
    if k == 10 {
      assert x == 10 * q + r;
    } else if k == 100 {
      assert x == 100 * q + r;
    } else {
      assert x == 1000 * q + r;
    }
  }

  lemma Pad4RoundTrip(n: int, s: string)
    requires 0 <= n < 10000 && |s| == 4 && AllDigits(s)
    ensures Val4(Pad4(n)) == n
    ensures Pad4(Val4(s)) == s
  {
    var a, b, c, d := n / 1000, n / 100 % 10, n / 10 % 10, n % 10;
    DivModUnique(n / 10, 10, n / 100, c);
    DivModUnique(n / 100, 10, n / 1000, b);
    assert n == 10 * (n / 10) + d;
    assert n / 10 == 10 * (n / 100) + c;
    assert n / 100 == 10 * a + b;
    var p, q, r, t := DigitValue(s[0]), DigitValue(s[1]), DigitValue(s[2]), DigitValue(s[3]);
    var v := Val4(s);
    DivModUnique(v, 10, 100 * p + 10 * q + r, t);
    DivModUnique(v, 100, 10 * p + q, 10 * r + t);
    DivModUnique(v, 1000, p, 100 * q + 10 * r + t);
    DivModUnique(v / 100, 10, p, q);
    DivModUnique(v / 10, 10, 10 * p + q, r);
    assert DigitChar(p) == s[0] && DigitChar(q) == s[1] && DigitChar(r) == s[2] && DigitChar(t) == s[3];
  }

  /** date.isoformat() and strftime("%Y-%m-%d"): YYYY-MM-DD. */
  function IsoText(d: Date): (s: string)
    requires InRange(d)
    ensures |s| == 10 && s[4] == '-' && s[7] == '-'
  {
    Pad4(d.year) + "-" + Pad2(d.month) + "-" + Pad2(d.day)
  }

  function FormatOrdinal(n: int): string
    requires ValidOrdinal(n)
  {
    ValidOrdinalInRange(n);
    IsoText(FromOrdinal(n))
  }

  predicate DigitsExcept(s: string, a: int, b: int)
  {
    forall i :: 0 <= i < |s| && i != a && i != b ==> IsDigit(s[i])
  }

  /** strptime(s, "%Y-%m-%d") with zero-padded fields, as an ordinal;
      None where Python raises. */
  function ParseIsoDate(s: string): (r: Option<int>)
    ensures r.Some? ==> ValidOrdinal(r.value)
  {
    if |s| == 10 && s[4] == '-' && s[7] == '-' && DigitsExcept(s, 4, 7) then
      var d := Date(Val4(s[..4]), Val2(s[5..7]), Val2(s[8..]));
      if InRange(d) then InRangeOrdinal(d); Some(ToOrdinal(d)) else None
    else None
  }

  /** Printing a date and reading it back gives the same day. */
  lemma ParseFormat(n: int)
    requires ValidOrdinal(n)
    ensures ParseIsoDate(FormatOrdinal(n)) == Some(n)
  {
    ValidOrdinalInRange(n);
    var d := FromOrdinal(n);
    var s := FormatOrdinal(n);
    assert s[..4] == Pad4(d.year) && s[5..7] == Pad2(d.month) && s[8..] == Pad2(d.day);
    Pad4RoundTrip(d.year, "0000");
    Pad2RoundTrip(d.month, "00");
    Pad2RoundTrip(d.day, "00");
    assert DigitsExcept(s, 4, 7);
  }

  /** A text that parses is the canonical form of the day it names. */
  lemma FormatParse(s: string)
    requires ParseIsoDate(s).Some?
    ensures FormatOrdinal(ParseIsoDate(s).value) == s
  {
    var d := Date(Val4(s[..4]), Val2(s[5..7]), Val2(s[8..]));
    FromToOrdinal(d);
    Pad4RoundTrip(0, s[..4]);
    Pad2RoundTrip(0, s[5..7]);
    Pad2RoundTrip(0, s[8..]);
    assert s == s[..4] + "-" + s[5..7] + "-" + s[8..];
  }

  /** strptime(s, "%Y-%m"): the first day of that month. */
  function ParseYearMonth(s: string): (r: Option<int>)
    ensures r.Some? ==> ValidOrdinal(r.value) && FromOrdinal(r.value).day == 1
  {
    if |s| == 7 && s[4] == '-' && DigitsExcept(s, 4, 4) then
      var d := Date(Val4(s[..4]), Val2(s[5..]), 1);
      if InRange(d) then InRangeOrdinal(d); FromToOrdinal(d); Some(ToOrdinal(d)) else None
    else None
  }

  /** strptime(s, "%Y"): January 1 of that year. */
  function ParseYear(s: string): (r: Option<int>)
    ensures r.Some? ==> ValidOrdinal(r.value) && FromOrdinal(r.value).month == 1 && FromOrdinal(r.value).day == 1
  {
    if |s| == 4 && AllDigits(s) && Val4(s) >= 1 then
      var d := Date(Val4(s), 1, 1);
      InRangeOrdinal(d); FromToOrdinal(d);
      Some(ToOrdinal(d))
    else None
  }

  /** %b in the C locale. */
  function MonthAbbr(m: int): (s: string)
    requires 1 <= m <= 12
    ensures |s| == 3
  {
    ["Jan", "Feb", "Mar", "Apr", "May", "Jun", "Jul", "Aug", "Sep", "Oct", "Nov", "Dec"][m - 1]
  }

  /** An abbreviation is a capital followed by two small letters. */
  lemma MonthAbbrShape(m: int)
    requires 1 <= m <= 12
    ensures var s := MonthAbbr(m); 'A' <= s[0] <= 'Z' && 'a' <= s[1] <= 'z' && 'a' <= s[2] <= 'z'
  {
  }

  /** strftime("%d %b"), and TO_CHAR(..., 'DD Mon') on the database side. */
  function DayMon(n: int): (s: string)
    requires n >= 1
    ensures |s| == 6 && s[2] == ' '
  {
    var d := FromOrdinal(n);
    Pad2(d.day) + " " + MonthAbbr(d.month)
  }

  /** strftime("%b %Y"). */
  function MonYear(n: int): (s: string)
    requires ValidOrdinal(n)
    ensures |s| == 8 && s[3] == ' '
  {
    ValidOrdinalInRange(n);
    var d := FromOrdinal(n);
    MonthAbbr(d.month) + " " + Pad4(d.year)
  }

  /** The month whose %b abbreviation is s, compared without case as
      strptime compares it, searching from month m on. */
  function MonthFrom(s: string, m: int): (r: Option<int>)
    requires 1 <= m <= 13
    ensures r.Some? ==> m <= r.value <= 12 && Lower(s) == Lower(MonthAbbr(r.value))
    ensures r.None? ==> forall k :: m <= k <= 12 ==> Lower(s) != Lower(MonthAbbr(k))
    decreases 13 - m
  {
    if m == 13 then None
    else if Lower(s) == Lower(MonthAbbr(m)) then Some(m)
    else MonthFrom(s, m + 1)
  }

  /** %b read back: the month of an abbreviation in any case. */
  function MonthOfAbbr(s: string): (r: Option<int>)
    ensures r.Some? ==> 1 <= r.value <= 12 && Lower(s) == Lower(MonthAbbr(r.value))
    ensures r.None? ==> forall k :: 1 <= k <= 12 ==> Lower(s) != Lower(MonthAbbr(k))
  {
    MonthFrom(s, 1)
  }

  /** The abbreviations in lower case. */
  const LowerAbbrs: seq<string> := ["jan", "feb", "mar", "apr", "may", "jun", "jul", "aug", "sep", "oct", "nov", "dec"]

  lemma LowerMonthAbbr(m: int)
    requires 1 <= m <= 12
    ensures Lower(MonthAbbr(m)) == LowerAbbrs[m - 1]
  {
    var s := MonthAbbr(m);
    assert Lower(s) == [LowerChar(s[0]), LowerChar(s[1]), LowerChar(s[2])];
  }

  lemma LowerAbbrsDistinct(m: int, k: int)
    requires 1 <= m <= 12 && 1 <= k <= 12 && m != k
    ensures LowerAbbrs[m - 1] != LowerAbbrs[k - 1]
  {
  }

  /** No two months share an abbreviation, whatever the case. */
  lemma MonthAbbrDistinct(m: int, k: int)
    requires 1 <= m <= 12 && 1 <= k <= 12 && m != k
    ensures Lower(MonthAbbr(m)) != Lower(MonthAbbr(k))
  {
    LowerMonthAbbr(m);
    LowerMonthAbbr(k);
    LowerAbbrsDistinct(m, k);
  }

  /** Reading an abbreviation back gives its month. */
  lemma MonthOfAbbrOf(m: int)
    requires 1 <= m <= 12
    ensures MonthOfAbbr(MonthAbbr(m)) == Some(m)
  {
    var r := MonthOfAbbr(MonthAbbr(m));
    if r != Some(m) {
      MonthAbbrDistinct(m, r.value);
    }
  }

  /** A day that exists in 1900, a common year, exists in every year. */
  lemma CommonYearDay(m: int, day: int, y: int)
    requires 1 <= m <= 12 && 1 <= day <= DaysInMonth(1900, m) && 1 <= y
    ensures IsCivil(Date(y, m, day))
  {
  }

  /** strptime(s, "%d<sep>%b<sep>%Y") with a two-digit day: the day, or
      None where Python raises. */
  function ParseDayMonthYear(s: string, sep: char): (r: Option<int>)
    ensures r.Some? ==> ValidOrdinal(r.value)
  {
    if |s| == 11 && s[2] == sep && s[6] == sep && AllDigits(s[..2]) && AllDigits(s[7..]) then
      match MonthOfAbbr(s[3..6])
      case Some(m) =>
        var d := Date(Val4(s[7..]), m, Val2(s[..2]));
        if InRange(d) then InRangeOrdinal(d); Some(ToOrdinal(d)) else None
      case None => None
    else None
  }

  /** strptime(s, "%d<sep>%b").replace(year=year): without a year strptime
      reads the day in 1900, a common year, so "29 Feb" fails; the day is
      then moved to the given year. */
  function ParseDayMonth(s: string, sep: char, year: int): (r: Option<int>)
    requires 1 <= year <= MaxYear
    ensures r.Some? ==> ValidOrdinal(r.value) && FromOrdinal(r.value).year == year
  {
    if |s| == 6 && s[2] == sep && AllDigits(s[..2]) then
      match MonthOfAbbr(s[3..])
      case Some(m) =>
        if IsCivil(Date(1900, m, Val2(s[..2]))) then
          var d := Date(year, m, Val2(s[..2]));
          CommonYearDay(m, d.day, year);
          InRangeOrdinal(d);
          FromToOrdinal(d);
          Some(ToOrdinal(d))
        else None
      case None => None
    else None
  }

  /** A day-month text whose day does not exist in 1900 ("30 Feb",
      "29 Feb", "00 Jan") names no day, whatever the year. */
  lemma ParseDayMonthNoSuchDay(day: int, m: int, sep: char, year: int)
    requires 0 <= day < 100 && 1 <= m <= 12 && !IsCivil(Date(1900, m, day)) && 1 <= year <= MaxYear
    ensures ParseDayMonth(Pad2(day) + [sep] + MonthAbbr(m), sep, year) == None
  {
    var s := Pad2(day) + [sep] + MonthAbbr(m);
    assert s[..2] == Pad2(day) && s[3..] == MonthAbbr(m);
    MonthOfAbbrOf(m);
    Pad2RoundTrip(day, "00");
  }

  /** A day printed as "%d<sep>%b<sep>%Y" reads back as that day. */
  lemma ParseDayMonthYearOf(d: Date, sep: char)
    requires InRange(d)
    ensures ValidOrdinal(ToOrdinal(d))
    ensures ParseDayMonthYear(Pad2(d.day) + [sep] + MonthAbbr(d.month) + [sep] + Pad4(d.year), sep) == Some(ToOrdinal(d))
  {
    var s := Pad2(d.day) + [sep] + MonthAbbr(d.month) + [sep] + Pad4(d.year);
    assert s[..2] == Pad2(d.day) && s[3..6] == MonthAbbr(d.month) && s[7..] == Pad4(d.year);
    MonthOfAbbrOf(d.month);
    Pad2RoundTrip(d.day, "00");
    Pad4RoundTrip(d.year, "0000");
    InRangeOrdinal(d);
  }

  /** strftime("%d %b") read back in the day's own year gives the day,
      except 29 February, which strptime refuses without a year. */
  lemma ParseDayMonthOf(d: Date, sep: char)
    requires InRange(d)
    ensures ValidOrdinal(ToOrdinal(d))
    ensures var s := Pad2(d.day) + [sep] + MonthAbbr(d.month);
            (!(d.month == 2 && d.day == 29) ==> ParseDayMonth(s, sep, d.year) == Some(ToOrdinal(d))) &&
            (d.month == 2 && d.day == 29 ==> ParseDayMonth(s, sep, d.year) == None)
  {
    var s := Pad2(d.day) + [sep] + MonthAbbr(d.month);
    assert s[..2] == Pad2(d.day) && s[3..] == MonthAbbr(d.month);
    MonthOfAbbrOf(d.month);
    Pad2RoundTrip(d.day, "00");
    InRangeOrdinal(d);
  }
}
