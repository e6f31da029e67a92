/** Period helpers of the item export
    (app/item_report/utils/item_export_xlsx_helper.py): clipping a period
    label to the requested dates and the display form of a label. Its
    choose_granularity, sort_periods and iso_week_to_range are the sales
    export's, modelled in Granularity and ExportPeriods. */
module ItemExportHelper {
  import opened Wrappers
  import opened Text
  import opened Calendar
  import opened Granularity
  import opened ExportPeriods

  function Max(a: int, b: int): int { if a >= b then a else b }

  function Min(a: int, b: int): int { if a <= b then a else b }

  /** The two days of a "_to_" label, when it has exactly two halves that
      are both YYYY-MM-DD; otherwise the unpacking or strptime raises. */
  function RangeDays(period: string): (r: Result<(int, int)>)
    ensures r.Ok? ==> ValidOrdinal(r.value.0) && ValidOrdinal(r.value.1)
    ensures r.Err? ==> r.failure == ValueError
  {
    var parts := Split(period, RangeSep);
    if |parts| != 2 then Err(ValueError)
    else match (ParseIsoDate(parts[0]), ParseIsoDate(parts[1]))
      case (Some(s), Some(e)) => Ok((s, e))
      case _ => Err(ValueError)
  }

  lemma RangeDaysOfLabel(s: int, e: int)
    requires ValidOrdinal(s) && ValidOrdinal(e)
    ensures RangeDays(RangeLabel(s, e)) == Ok((s, e))
  {
    SplitRangeLabel(s, e);
    ParseFormat(s);
    ParseFormat(e);
  }

  /** clip_period_to_range: a weekly range is narrowed to
      [from_date, to_date]; a daily label outside the dates is dropped
      (None); other labels pass unchanged. */
  function ClipPeriodToRange(period: string, g: Granularity, fromDay: int, toDay: int): (r: Result<Option<string>>)
    requires ValidOrdinal(fromDay) && ValidOrdinal(toDay)
    ensures r.Err? ==> r.failure == ValueError && (g == Weekly || g == Daily)
    ensures g == Weekly && Contains(period, RangeSep) ==>
              (r.Ok? <==> RangeDays(period).Ok?) &&
              (r.Ok? ==> var (s, e) := RangeDays(period).value;
                         r.value == Some(RangeLabel(Max(s, fromDay), Min(e, toDay))))
    ensures g == Daily ==>
              (r.Ok? <==> ParseIsoDate(period).Some?) &&
              (r.Ok? ==> var d := ParseIsoDate(period).value;
                         r.value == if fromDay <= d <= toDay then Some(period) else None)
    ensures (g == Monthly || g == Yearly || (g == Weekly && !Contains(period, RangeSep))) ==> r == Ok(Some(period))
  {
    if g == Weekly && Contains(period, RangeSep) then
      match RangeDays(period)
      case Ok((s, e)) => Ok(Some(RangeLabel(Max(s, fromDay), Min(e, toDay))))
      case Err(f) => Err(f)
    else if g == Daily then
      match ParseIsoDate(period)
      case Some(d) => if fromDay <= d <= toDay then Ok(Some(period)) else Ok(None)
      case None => Err(ValueError)
    else Ok(Some(period))
  }

  /** A clipped weekly range starts no earlier than from_date and ends no
      later than to_date; a week inside the dates is kept as it is. */
  lemma ClipWeekWithin(s: int, e: int, fromDay: int, toDay: int)
    requires ValidOrdinal(s) && ValidOrdinal(e) && ValidOrdinal(fromDay) && ValidOrdinal(toDay)
    ensures var r := ClipPeriodToRange(RangeLabel(s, e), Weekly, fromDay, toDay);
            r.Ok? && r.value.Some? &&
            RangeDays(r.value.value).Ok? &&
            fromDay <= RangeDays(r.value.value).value.0 && RangeDays(r.value.value).value.1 <= toDay
    ensures fromDay <= s && e <= toDay ==>
              ClipPeriodToRange(RangeLabel(s, e), Weekly, fromDay, toDay) == Ok(Some(RangeLabel(s, e)))
  {
    SplitRangeLabel(s, e);
    RangeDaysOfLabel(s, e);
    RangeDaysOfLabel(Max(s, fromDay), Min(e, toDay));
  }

  /** Clipping is idempotent: a label clipped once is unchanged by a
      second clip to the same dates. */
  lemma ClipIdempotent(period: string, g: Granularity, fromDay: int, toDay: int)
    requires ValidOrdinal(fromDay) && ValidOrdinal(toDay)
    requires ClipPeriodToRange(period, g, fromDay, toDay).Ok?
    requires ClipPeriodToRange(period, g, fromDay, toDay).value.Some?
    ensures var p := ClipPeriodToRange(period, g, fromDay, toDay).value.value;
            ClipPeriodToRange(p, g, fromDay, toDay) == Ok(Some(p))
  {
    if g == Weekly && Contains(period, RangeSep) {
      var (s, e) := RangeDays(period).value;
      var s1, e1 := Max(s, fromDay), Min(e, toDay);
      SplitRangeLabel(s1, e1);
      RangeDaysOfLabel(s1, e1);
    }
  }

  /** format_period_label: a weekly range as "dd Mon - dd Mon", a day as
      "dd Mon", a month "YYYY-MM" as "Mon YYYY", anything else unchanged;
      text that does not parse makes strptime raise. */
  function FormatPeriodLabel(period: string, g: Granularity): (r: Result<string>)
    ensures r.Err? ==> r.failure == ValueError && g != Yearly
    ensures g == Weekly ==> r == FormatWeekDisplay(period)
    ensures g == Daily ==> (r.Ok? <==> ParseIsoDate(period).Some?) &&
                           (r.Ok? ==> r.value == DayMon(ParseIsoDate(period).value))
    ensures g == Monthly ==> (r.Ok? <==> ParseYearMonth(period).Some?) &&
                             (r.Ok? ==> r.value == MonYear(ParseYearMonth(period).value))
    ensures g == Yearly ==> r == Ok(period)
  {
    if g == Weekly && Contains(period, RangeSep) then
      match RangeDays(period)
      case Ok((s, e)) => Ok(DayMon(s) + " - " + DayMon(e))
      case Err(f) => Err(f)
    else if g == Daily then
      match ParseIsoDate(period)
      case Some(d) => Ok(DayMon(d))
      case None => Err(ValueError)
    else if g == Monthly then
      match ParseYearMonth(period)
      case Some(m) => Ok(MonYear(m))
      case None => Err(ValueError)
    else Ok(period)
  }

  /** The header of a clipped week shows the clipped days. */
  lemma FormatClippedWeek(s: int, e: int, fromDay: int, toDay: int)
    requires ValidOrdinal(s) && ValidOrdinal(e) && ValidOrdinal(fromDay) && ValidOrdinal(toDay)
    ensures var r := ClipPeriodToRange(RangeLabel(s, e), Weekly, fromDay, toDay);
            r.Ok? && r.value.Some? &&
            FormatPeriodLabel(r.value.value, Weekly) == Ok(DayMon(Max(s, fromDay)) + " - " + DayMon(Min(e, toDay)))
  {
    var s1, e1 := Max(s, fromDay), Min(e, toDay);
    SplitRangeLabel(s, e);
    RangeDaysOfLabel(s, e);
    assert ClipPeriodToRange(RangeLabel(s, e), Weekly, fromDay, toDay) == Ok(Some(RangeLabel(s1, e1)));
    FormatRangeDisplay(s1, e1);
    assert FormatPeriodLabel(RangeLabel(s1, e1), Weekly) == FormatWeekDisplay(RangeLabel(s1, e1));
  }

  /** A printed day shows as "dd Mon" of that day. */
  lemma FormatDay(d: int)
    requires ValidOrdinal(d)
    ensures FormatPeriodLabel(FormatOrdinal(d), Daily) == Ok(DayMon(d))
  {
    ParseFormat(d);
  }
}
