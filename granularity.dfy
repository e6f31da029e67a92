/** How reports pick a period size from the requested date range, and the
    SQL period label and ordering expressions that go with it. */
module Granularity {
  import opened Wrappers
  import opened Calendar

  datatype Granularity = Daily | Weekly | Monthly | Yearly

  function Fineness(g: Granularity): int
  {
    match g
    case Daily => 0
    case Weekly => 1
    case Monthly => 2
    case Yearly => 3
  }

  /** Export rule: on the span (max - min).days, at most 62 is daily, at
      most 183 weekly, beyond that monthly. */
  function ExportGranularity(minDay: int, maxDay: int): (g: Granularity)
    ensures g != Yearly
    ensures g == Daily <==> maxDay - minDay <= 62
    ensures g == Monthly <==> maxDay - minDay > 183
  {
    var span := maxDay - minDay;
    if span <= 62 then Daily else if span <= 183 then Weekly else Monthly
  }

  /** Dashboard rule: on the inclusive day count, at most 31 is daily, at
      most 183 weekly, beyond that monthly. */
  function DashboardGranularity(fromDay: int, toDay: int): (g: Granularity)
    ensures g != Yearly
    ensures g == Daily <==> toDay - fromDay + 1 <= 31
    ensures g == Monthly <==> toDay - fromDay + 1 > 183
  {
    var days := toDay - fromDay + 1;
    if days <= 31 then Daily else if days <= 183 then Weekly else Monthly
  }

  /** A longer range never gives finer periods (export rule). */
  lemma ExportMonotone(a1: int, b1: int, a2: int, b2: int)
    requires b1 - a1 <= b2 - a2
    ensures Fineness(ExportGranularity(a1, b1)) <= Fineness(ExportGranularity(a2, b2))
  {
  }

  /** A longer range never gives finer periods (dashboard rule). */
  lemma DashboardMonotone(a1: int, b1: int, a2: int, b2: int)
    requires b1 - a1 <= b2 - a2
    ensures Fineness(DashboardGranularity(a1, b1)) <= Fineness(DashboardGranularity(a2, b2))
  {
  }

  /** The two rules disagree exactly on spans of 31 to 62 days (export
      daily, dashboard weekly) and on a span of 183 days (export weekly,
      dashboard monthly). */
  lemma RulesAgreement(a: int, b: int)
    ensures ExportGranularity(a, b) == DashboardGranularity(a, b) <==>
            (b - a <= 30 || 63 <= b - a <= 182 || b - a >= 184)
  {
  }

  // ----- SQL period expressions -----

  /** 'Mon-YYYY' or 'YYYY-MM'. */
  datatype MonthStyle = MonDashYear | YearDashMonth

  /** The period label expression over a date column. */
  datatype PeriodSql =
    | DayText(col: string)                        // TO_CHAR(col, 'YYYY-MM-DD')
    | WeekSpanText(col: string)                   // week start 'DD Mon' - start + 6 days 'DD Mon'
    | MonthText(col: string, style: MonthStyle)   // TO_CHAR(DATE_TRUNC('month', col), style)

  /** The ORDER BY expression over a date column. */
  datatype OrderSql =
    | ByDay(col: string)          // col
    | ByWeekStart(col: string)    // DATE_TRUNC('week', col)
    | ByMonthStart(col: string)   // DATE_TRUNC('month', col)

  datatype Choice = Choice(granularity: Granularity, period: PeriodSql, order: OrderSql)

  /** The dashboard chooser over a given date column. */
  function ChooseForColumn(fromDay: int, toDay: int, col: string, style: MonthStyle): (c: Choice)
    ensures c.granularity == DashboardGranularity(fromDay, toDay)
    ensures c.period.col == col && c.order.col == col
    ensures c.granularity == Daily <==> c.period.DayText? && c.order.ByDay?
    ensures c.granularity == Weekly <==> c.period.WeekSpanText? && c.order.ByWeekStart?
    ensures c.granularity == Monthly <==> c.period == MonthText(col, style) && c.order.ByMonthStart?
  {
    match DashboardGranularity(fromDay, toDay)
    case Daily => Choice(Daily, DayText(col), ByDay(col))
    case Weekly => Choice(Weekly, WeekSpanText(col), ByWeekStart(col))
    case _ => Choice(Monthly, MonthText(col, style), ByMonthStart(col))
  }

  /** The chooser on "YYYY-MM-DD" texts: a text that does not parse makes
      fromisoformat raise. */
  function ChooseForText(fromText: string, toText: string, col: string, style: MonthStyle): (r: Result<Choice>)
    ensures r.Ok? <==> ParseIsoDate(fromText).Some? && ParseIsoDate(toText).Some?
    ensures r.Ok? ==> r.value == ChooseForColumn(ParseIsoDate(fromText).value, ParseIsoDate(toText).value, col, style)
    ensures r.Err? ==> r.failure == ValueError
  {
    match (ParseIsoDate(fromText), ParseIsoDate(toText))
    case (Some(a), Some(b)) => Ok(ChooseForColumn(a, b, col, style))
    case _ => Err(ValueError)
  }

  /** Date columns of the dashboard choosers. */
  const SalesInvoiceDate := "ih.invoice_date"
  const SummaryInvoiceDate := "ms.invoice_date"
  const BareInvoiceDate := "invoice_date"
  const VisitStartTime := "vp.visit_start_time"
  const OrderDate := "hth.order_date"

  // ----- what the expressions evaluate to for a row's day -----

  /** DATE_TRUNC('week', d): the Monday on or before d. */
  function WeekStart(day: int): (m: int)
    requires day >= 1
    ensures m >= 1 && Weekday(m) == 0 && m <= day <= m + 6
  {
    day - Weekday(day)
  }

  /** DATE_TRUNC('month', d): the first day of d's month. */
  function MonthStart(day: int): (m: int)
    requires day >= 1
    ensures 1 <= m <= day
    ensures FromOrdinal(m).day == 1
    ensures FromOrdinal(m).year == FromOrdinal(day).year && FromOrdinal(m).month == FromOrdinal(day).month
  {
    var d := FromOrdinal(day);
    var first := Date(d.year, d.month, 1);
    FromToOrdinal(first);
    ToOrdinal(first)
  }

  /** The label text the database produces for a row dated `day`. */
  function LabelOf(e: PeriodSql, day: int): string
    requires ValidOrdinal(day)
  {
    match e
    case DayText(_) => FormatOrdinal(day)
    case WeekSpanText(_) => DayMon(WeekStart(day)) + " - " + DayMon(WeekStart(day) + 6)
    case MonthText(_, style) =>
      ValidOrdinalInRange(day);
      var d := FromOrdinal(day);
      if style == MonDashYear then MonthAbbr(d.month) + "-" + Pad4(d.year)
      else Pad4(d.year) + "-" + Pad2(d.month)
  }

  /** The sort key the database orders that row's period by. */
  function OrderKeyOf(o: OrderSql, day: int): int
    requires day >= 1
  {
    match o
    case ByDay(_) => day
    case ByWeekStart(_) => WeekStart(day)
    case ByMonthStart(_) => MonthStart(day)
  }

  /** A weekly bucket runs from a Monday to the Sunday six days later, is
      labelled with both ends, and is ordered by its Monday. */
  lemma WeeklyBucket(fromDay: int, toDay: int, col: string, style: MonthStyle, day: int)
    requires ValidOrdinal(day)
    requires ChooseForColumn(fromDay, toDay, col, style).granularity == Weekly
    ensures ChooseForColumn(fromDay, toDay, col, style).order == ByWeekStart(col)
    ensures ChooseForColumn(fromDay, toDay, col, style).period == WeekSpanText(col)
    ensures Weekday(WeekStart(day)) == 0 && WeekStart(day) <= day <= WeekStart(day) + 6
    ensures LabelOf(WeekSpanText(col), day) == DayMon(WeekStart(day)) + " - " + DayMon(WeekStart(day) + 6)
  {
  }

  /** Rows ordered under the same key carry the same label, whatever the
      granularity, so ordering by the key keeps each label's rows together. */
  lemma KeyDeterminesLabel(fromDay: int, toDay: int, col: string, style: MonthStyle, d1: int, d2: int)
    requires ValidOrdinal(d1) && ValidOrdinal(d2)
    ensures var c := ChooseForColumn(fromDay, toDay, col, style);
            OrderKeyOf(c.order, d1) == OrderKeyOf(c.order, d2) ==> LabelOf(c.period, d1) == LabelOf(c.period, d2)
  {
    var c := ChooseForColumn(fromDay, toDay, col, style);
    if OrderKeyOf(c.order, d1) == OrderKeyOf(c.order, d2) {
      if c.granularity == Daily {
        assert d1 == d2;
      } else if c.granularity == Weekly {
        WeekKeyDeterminesLabel(col, d1, d2);
      } else {
        MonthKeyDeterminesLabel(col, style, d1, d2);
      }
    }
  }

  lemma WeekKeyDeterminesLabel(col: string, d1: int, d2: int)
    requires ValidOrdinal(d1) && ValidOrdinal(d2) && WeekStart(d1) == WeekStart(d2)
    ensures LabelOf(WeekSpanText(col), d1) == LabelOf(WeekSpanText(col), d2)
  {
  }

  lemma MonthKeyDeterminesLabel(col: string, style: MonthStyle, d1: int, d2: int)
    requires ValidOrdinal(d1) && ValidOrdinal(d2) && MonthStart(d1) == MonthStart(d2)
    ensures LabelOf(MonthText(col, style), d1) == LabelOf(MonthText(col, style), d2)
  {
    MonthlyBucket(d1, d2);
  }

  /** A monthly bucket holds exactly the days of one calendar month. */
  lemma MonthlyBucket(day: int, other: int)
    requires day >= 1 && other >= 1
    ensures MonthStart(day) == MonthStart(other) <==>
            (FromOrdinal(day).year == FromOrdinal(other).year && FromOrdinal(day).month == FromOrdinal(other).month)
  {
    var m1, m2 := MonthStart(day), MonthStart(other);
    if FromOrdinal(day).year == FromOrdinal(other).year && FromOrdinal(day).month == FromOrdinal(other).month {
      FromToOrdinal(FromOrdinal(m1));
      ToOrdinalInjective(FromOrdinal(m1), FromOrdinal(m2));
    }
  }
}
