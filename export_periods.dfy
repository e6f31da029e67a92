/** Period labels of the sales export (app/sales_report/utils/export_helper.py):
    ISO week labels turned into date ranges, the pretty form of a range,
    sorting labels chronologically, and fixed seven-day windows. */
module ExportPeriods {
  import opened Wrappers
  import opened Text
  import opened Calendar
  import opened Sorting
  import opened Granularity

  const RangeSep := "_to_"

  /** "{start}_to_{end}" with both days in YYYY-MM-DD form. */
  function RangeLabel(s: int, e: int): string
    requires ValidOrdinal(s) && ValidOrdinal(e)
  {
    FormatOrdinal(s) + RangeSep + FormatOrdinal(e)
  }

  /** The label of the Monday-to-Sunday week starting on m. */
  function WeekLabel(m: int): string
    requires ValidOrdinal(m) && ValidOrdinal(m + 6)
  {
    RangeLabel(m, m + 6)
  }

  lemma DateTextAvoids(n: int, c: char)
    requires ValidOrdinal(n) && c != '-' && !IsDigit(c)
    ensures Avoids(FormatOrdinal(n), c)
  {
    var t := FormatOrdinal(n);
    ValidOrdinalInRange(n);
    var d := FromOrdinal(n);
    assert t == Pad4(d.year) + "-" + Pad2(d.month) + "-" + Pad2(d.day);
    forall i | 0 <= i < |t| ensures t[i] != c {
      if i != 4 && i != 7 {
        assert IsDigit(t[i]);
      }
    }
  }

  /** A range label splits back into its two day texts. */
  lemma SplitRangeLabel(s: int, e: int)
    requires ValidOrdinal(s) && ValidOrdinal(e)
    ensures Split(RangeLabel(s, e), RangeSep) == [FormatOrdinal(s), FormatOrdinal(e)]
    ensures Contains(RangeLabel(s, e), RangeSep)
  {
    DateTextAvoids(s, '_');
    DateTextAvoids(e, '_');
    SplitTwo(FormatOrdinal(s), RangeSep, FormatOrdinal(e));
    var l := RangeLabel(s, e);
    assert l[10..14] == RangeSep;
    assert OccursAt(l, RangeSep, 10);
  }

  /** iso_week_to_range: "YYYY-WW" becomes the Monday-to-Sunday range of
      that ISO week; any label that is not two integers naming an existing
      ISO week comes back unchanged. */
  function IsoWeekToRange(text: string): (r: string)
    ensures r == text || exists m :: ValidOrdinal(m) && ValidOrdinal(m + 6) && Weekday(m) == 0 && r == WeekLabel(m)
  {
    var parts := Split(text, "-");
    if |parts| != 2 then text
    else match (ParseInt(parts[0]), ParseInt(parts[1]))
      case (Some(y), Some(w)) =>
        (match (FromIsoCalendar(y, w, 1), FromIsoCalendar(y, w, 7))
         case (Some(s), Some(e)) =>
           IsoWeekEnds(y, w, s, e);
           RangeLabel(s, e)
         case _ => text)
      case _ => text
  }

  /** The first and seventh day of an ISO week are a Monday and the
      Sunday six days later. */
  lemma IsoWeekEnds(y: int, w: int, s: int, e: int)
    requires FromIsoCalendar(y, w, 1) == Some(s) && FromIsoCalendar(y, w, 7) == Some(e)
    ensures ValidOrdinal(s) && ValidOrdinal(s + 6) && Weekday(s) == 0 && e == s + 6
    ensures RangeLabel(s, e) == WeekLabel(s)
  {
  }

  /** The label of ISO week w of year y converts to the week that starts
      w - 1 weeks after the Monday of week 1. */
  lemma IsoWeekToRangeOfWeek(y: int, w: int, m: int)
    requires 1 <= y <= MaxYear && 1 <= w <= WeeksInIsoYear(y)
    requires m == Week1Monday(y) + 7 * (w - 1) && ValidOrdinal(m + 6)
    ensures ValidOrdinal(m) && Weekday(m) == 0
    ensures IsoWeekToRange(Pad4(y) + "-" + Pad2(w)) == WeekLabel(m)
  {
    IsoWeekFields(y, w);
    FromIsoCalendarOfWeek(y, w, m);
    IsoWeekToRangeOfFields(Pad4(y) + "-" + Pad2(w), Pad4(y), Pad2(w), y, w, m);
  }

  /** "YYYY-WW" splits at its dash into two fields that parse back. */
  lemma IsoWeekFields(y: int, w: int)
    requires 0 <= y < 10000 && 0 <= w < 100
    ensures Split(Pad4(y) + "-" + Pad2(w), "-") == [Pad4(y), Pad2(w)]
    ensures ParseInt(Pad4(y)) == Some(y) && ParseInt(Pad2(w)) == Some(w)
  {
    assert Avoids(Pad4(y), '-') && Avoids(Pad2(w), '-') by {
      assert AllDigits(Pad4(y)) && AllDigits(Pad2(w));
    }
    SplitTwo(Pad4(y), "-", Pad2(w));
    ParsePad4(y);
    ParsePad2(w);
  }

  lemma ParsePad4(y: int)
    requires 0 <= y < 10000
    ensures ParseInt(Pad4(y)) == Some(y)
  {
    Pad4RoundTrip(y, "0000");
    PaddedParse(Pad4(y));
  }

  lemma ParsePad2(w: int)
    requires 0 <= w < 100
    ensures ParseInt(Pad2(w)) == Some(w)
  {
    Pad2RoundTrip(w, "00");
    PaddedParse(Pad2(w));
  }

  /** A label whose two fields parse as an existing ISO week converts to
      that week's range. */
  lemma IsoWeekToRangeOfFields(text: string, a: string, b: string, y: int, w: int, m: int)
    requires Split(text, "-") == [a, b] && ParseInt(a) == Some(y) && ParseInt(b) == Some(w)
    requires FromIsoCalendar(y, w, 1) == Some(m) && FromIsoCalendar(y, w, 7) == Some(m + 6)
    ensures IsoWeekToRange(text) == WeekLabel(m)
  {
  }

  /** int() of a 2- or 4-digit field is its value. */
  lemma PaddedParse(s: string)
    requires (|s| == 2 || |s| == 4) && AllDigits(s)
    ensures |s| == 2 ==> ParseInt(s) == Some(Val2(s))
    ensures |s| == 4 ==> ParseInt(s) == Some(Val4(s))
  {
    ParseUnsigned(s);
    if |s| == 4 {
      DecValue4(s);
    } else {
      DecValue2(s);
    }
  }

  lemma DecValue1(s: string)
    requires |s| == 1 && AllDigits(s)
    ensures DecValue(s) == DigitValue(s[0])
  {
    assert s[..0] == [];
  }

  lemma DecValue2(s: string)
    requires |s| == 2 && AllDigits(s)
    ensures DecValue(s) == Val2(s)
  {
    var a := s[..1];
    assert DecValue(s) == DecValue(a) * 10 + DigitValue(s[1]);
    DecValue1(a);
  }

  lemma DecValue4(s: string)
    requires |s| == 4 && AllDigits(s)
    ensures DecValue(s) == Val4(s)
  {
    var c := s[..3];
    assert DecValue(s) == DecValue(c) * 10 + DigitValue(s[3]);
    var b := c[..2];
    assert DecValue(c) == DecValue(b) * 10 + DigitValue(c[2]);
    DecValue2(b);
  }

  /** Week 53 of a year that has only 52 ISO weeks is not converted. */
  lemma IsoWeekToRangeRejectsWeek53(y: int)
    requires 1 <= y <= MaxYear && !HasWeek53(y)
    ensures IsoWeekToRange(Pad4(y) + "-" + Pad2(53)) == Pad4(y) + "-" + Pad2(53)
  {
    SplitTwo(Pad4(y), "-", Pad2(53));
    Pad4RoundTrip(y, "0000");
    Pad2RoundTrip(53, "00");
    PaddedParse(Pad4(y));
    PaddedParse(Pad2(53));
  }

  // ----- sort_periods -----

  /** The datetime a label is sorted by: the day before "_to_" for weekly
      labels, "%Y-%m" for monthly, "%Y" for yearly, "%Y-%m-%d" otherwise. */
  function PeriodKey(p: string, g: Granularity): Option<int>
  {
    match g
    case Weekly => ParseIsoDate(Split(p, RangeSep)[0])
    case Monthly => ParseYearMonth(p)
    case Yearly => ParseYear(p)
    case Daily => ParseIsoDate(p)
  }

  function KeyOrZero(p: string, g: Granularity): int
  {
    match PeriodKey(p, g) case Some(k) => k case None => 0
  }

  /** Comparison of two labels by their sort keys. */
  function PeriodLeq(g: Granularity): (string, string) -> bool
  {
    (a: string, b: string) => KeyOrZero(a, g) <= KeyOrZero(b, g)
  }

  lemma KeyOrder(g: Granularity)
    ensures Total(PeriodLeq(g)) && Transitive(PeriodLeq(g))
  {
  }

  /** A permutation of labels that all parse, sorted by PeriodLeq, is in
      ascending key order. */
  lemma SortedKeys(periods: seq<string>, s: seq<string>, g: Granularity)
    requires forall i :: 0 <= i < |periods| ==> PeriodKey(periods[i], g).Some?
    requires multiset(s) == multiset(periods) && SortedBy(s, PeriodLeq(g))
    ensures forall i :: 0 <= i < |s| ==> PeriodKey(s[i], g).Some?
    ensures forall i, j :: 0 <= i < j < |s| ==> PeriodKey(s[i], g).value <= PeriodKey(s[j], g).value
  {
    forall i | 0 <= i < |s| ensures PeriodKey(s[i], g).Some? {
      assert s[i] in multiset(periods);
    }
    forall i, j | 0 <= i < j < |s| ensures PeriodKey(s[i], g).value <= PeriodKey(s[j], g).value {
      assert PeriodLeq(g)(s[i], s[j]);
    }
  }

  /** sort_periods: ascending by PeriodKey; a label that does not parse
      makes strptime raise. */
  function SortPeriods(periods: seq<string>, g: Granularity): (r: Result<seq<string>>)
    ensures r.Ok? <==> forall i :: 0 <= i < |periods| ==> PeriodKey(periods[i], g).Some?
    ensures r.Err? ==> r.failure == ValueError
    ensures r.Ok? ==> multiset(r.value) == multiset(periods)
    ensures r.Ok? ==> forall i :: 0 <= i < |r.value| ==> PeriodKey(r.value[i], g).Some?
    ensures r.Ok? ==> forall i, j :: 0 <= i < j < |r.value| ==>
                        PeriodKey(r.value[i], g).value <= PeriodKey(r.value[j], g).value
  {
    if exists i :: 0 <= i < |periods| && PeriodKey(periods[i], g).None? then Err(ValueError)
    else
      KeyOrder(g);
      var s := Sort(periods, PeriodLeq(g));
      SortedKeys(periods, s, g);
      Ok(s)
  }

  /** A weekly range label is sorted by its first day. */
  lemma RangeLabelKey(s: int, e: int)
    requires ValidOrdinal(s) && ValidOrdinal(e)
    ensures PeriodKey(RangeLabel(s, e), Weekly) == Some(s)
  {
    SplitRangeLabel(s, e);
    ParseFormat(s);
  }

  // ----- format_week_display -----

  /** The pretty header form of a label: a "_to_" range becomes
      "dd Mon - dd Mon"; other labels are kept; a range whose halves are
      not two days makes the unpacking or strptime raise. */
  function FormatWeekDisplay(text: string): (r: Result<string>)
    ensures !Contains(text, RangeSep) ==> r == Ok(text)
    ensures r.Err? ==> r.failure == ValueError
  {
    if !Contains(text, RangeSep) then Ok(text)
    else
      var parts := Split(text, RangeSep);
      if |parts| != 2 then Err(ValueError)
      else match (ParseIsoDate(parts[0]), ParseIsoDate(parts[1]))
        case (Some(s), Some(e)) => Ok(DayMon(s) + " - " + DayMon(e))
        case _ => Err(ValueError)
  }

  lemma FormatRangeDisplay(s: int, e: int)
    requires ValidOrdinal(s) && ValidOrdinal(e)
    ensures FormatWeekDisplay(RangeLabel(s, e)) == Ok(DayMon(s) + " - " + DayMon(e))
  {
    SplitRangeLabel(s, e);
    ParseFormat(s);
    ParseFormat(e);
  }

  // ----- generate_week_ranges -----

  /** The first day of the last window generate_week_ranges opens. */
  function LastWeekStart(fromDay: int, toDay: int): int
    requires fromDay <= toDay
  {
    fromDay + 7 * ((toDay - fromDay) / 7)
  }

  /** The loop steps past date.max: either `cur + 6` in the last window or
      `end + 1` after a window that ends on date.max. */
  predicate WeekRangesOverflow(fromDay: int, toDay: int)
  {
    fromDay <= toDay && (toDay == MaxOrdinal || LastWeekStart(fromDay, toDay) + 6 > MaxOrdinal)
  }

  /** generate_week_ranges: consecutive windows of seven days from
      from_date, the last one cut at to_date; OverflowError when the day
      arithmetic passes date.max. */
  method GenerateWeekRanges(fromDay: int, toDay: int) returns (r: Result<seq<(int, int)>>)
    requires ValidOrdinal(fromDay) && ValidOrdinal(toDay)
    ensures r.Err? <==> WeekRangesOverflow(fromDay, toDay)
    ensures r.Err? ==> r.failure == OverflowError
    ensures fromDay > toDay ==> r == Ok([])
    ensures r.Ok? && fromDay <= toDay ==>
              var ranges := r.value;
              |ranges| == (toDay - fromDay) / 7 + 1 &&
              ranges[0].0 == fromDay && ranges[|ranges| - 1].1 == toDay
    ensures r.Ok? ==> var ranges := r.value;
              (forall i :: 0 <= i < |ranges| ==> ranges[i].0 <= ranges[i].1 <= ranges[i].0 + 6) &&
              (forall i :: 0 <= i < |ranges| - 1 ==> ranges[i].1 == ranges[i].0 + 6 && ranges[i + 1].0 == ranges[i].1 + 1)
  {
    var ranges: seq<(int, int)> := [];
    var cur := fromDay;
    while cur <= toDay
      invariant fromDay <= toDay ==> fromDay <= cur <= toDay + 1
      invariant fromDay > toDay ==> cur == fromDay && ranges == []
      invariant cur <= MaxOrdinal
      invariant cur <= toDay ==> cur == fromDay + 7 * |ranges|
      invariant |ranges| == 0 ==> cur == fromDay
      invariant |ranges| > 0 ==> ranges[0].0 == fromDay && cur == ranges[|ranges| - 1].1 + 1
      invariant |ranges| > 0 ==> ranges[|ranges| - 1].0 == fromDay + 7 * (|ranges| - 1)
      invariant |ranges| > 0 ==> ranges[|ranges| - 1].0 + 6 <= MaxOrdinal
      invariant |ranges| > 0 && cur > toDay ==> ranges[|ranges| - 1].1 == toDay
      invariant forall i :: 0 <= i < |ranges| ==> ranges[i].0 <= ranges[i].1 <= ranges[i].0 + 6
      invariant forall i :: 0 <= i < |ranges| - 1 ==> ranges[i].1 == ranges[i].0 + 6 && ranges[i + 1].0 == ranges[i].1 + 1
      decreases toDay - cur
    {
      if cur + 6 > MaxOrdinal {
        LastWindow(fromDay, toDay, |ranges| + 1);
        return Err(OverflowError);
      }
      var end := cur + 6;
      if end > toDay {
        end := toDay;
      }
      ranges := ranges + [(cur, end)];
      if end + 1 > MaxOrdinal {
        assert toDay == MaxOrdinal;
        return Err(OverflowError);
      }
      cur := end + 1;
    }
    if fromDay <= toDay {
      LastWindow(fromDay, toDay, |ranges|);
    }
    r := Ok(ranges);
  }

  /** When to_date falls in the n-th window, there are n windows and the
      last starts 7 * (n - 1) days after from_date. */
  lemma LastWindow(fromDay: int, toDay: int, n: int)
    requires 1 <= n && fromDay + 7 * (n - 1) <= toDay <= fromDay + 7 * (n - 1) + 6
    ensures (toDay - fromDay) / 7 + 1 == n
    ensures LastWeekStart(fromDay, toDay) == fromDay + 7 * (n - 1)
  {
    DivModUnique7(toDay - fromDay, n - 1);
  }

  lemma DivModUnique7(x: int, q: int)
    requires 7 * q <= x <= 7 * q + 6
    ensures x / 7 == q
  {
  }
}
