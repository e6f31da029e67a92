/** The comparison report's helper: its request check, the current and
    previous windows for a selected day, month or year, and the WHERE
    fragments over the window that spans both. */
module Comparison {
  import opened Wrappers
  import opened Text
  import opened Calendar
  import opened Sorting
  import opened Sql
  import opened QueryParts

  /** The fields of ComparisonRequest the helper reads; an absent list is
      []. selected_date is a date, so it is always present. */
  datatype Request = Request(
    reportBy: string,
    selected: Date,
    searchType: string,
    warehouseIds: seq<int>,
    salesmanIds: seq<int>,
    displayQuantity: string)

  // ---- validate_mandatory ----

  const FieldsRequired := "report_by, selected_date, and search_type are required"
  const BadReportBy := "report_by must be one of: day, month, year"

  predicate KnownReportBy(s: string) { s == "day" || s == "month" || s == "year" }

  /** The request check. selected_date arrives as a date, so the ISO check
      on a string never applies. */
  function ValidateMandatory(r: Request): (res: Result<()>)
    ensures res.Ok? <==> r.searchType != "" && KnownReportBy(r.reportBy)
    ensures res.Err? ==> res.failure.Http? && res.failure.status == 400
    ensures res.Err? && res.failure.detail == BadReportBy ==> r.reportBy != "" && r.searchType != ""
  {
    if r.reportBy == "" || r.searchType == "" then Err(BadRequest(FieldsRequired))
    else if !KnownReportBy(r.reportBy) then Err(BadRequest(BadReportBy))
    else Ok(())
  }

  // ---- get_periods ----

  /** current_from, current_to, previous_from, previous_to. */
  datatype Periods = Periods(curFrom: Date, curTo: Date, prevFrom: Date, prevTo: Date)

  function FirstOfMonth(d: Date): Date { Date(d.year, d.month, 1) }

  function LastOfMonth(d: Date): Date
    requires 1 <= d.month <= 12
  {
    Date(d.year, d.month, DaysInMonth(d.year, d.month))
  }

  /** get_periods. Stepping back from 0001-01-01 overflows, and a year 0
      is out of range. */
  function GetPeriods(reportBy: string, sel: Date): (r: Result<Periods>)
    requires InRange(sel)
    ensures r.Ok? ==> IsCivil(r.value.curFrom) && IsCivil(r.value.curTo)
                      && IsCivil(r.value.prevFrom) && IsCivil(r.value.prevTo)
  {
    if reportBy == "day" then
      var n := ToOrdinal(sel);
      if n == 1 then Err(OverflowError)
      else
        var prev := FromOrdinal(n - 1);
        Ok(Periods(sel, sel, prev, prev))
    else if reportBy == "month" then
      var curFrom := FirstOfMonth(sel);
      var n := ToOrdinal(curFrom);
      if n == 1 then Err(OverflowError)
      else
        var prevMonth := FromOrdinal(n - 1);
        Ok(Periods(curFrom, LastOfMonth(sel), FirstOfMonth(prevMonth), LastOfMonth(prevMonth)))
    else if reportBy == "year" then
      if sel.year == 1 then Err(ValueError)
      else
        Ok(Periods(Date(sel.year, 1, 1), Date(sel.year, 12, 31),
                   Date(sel.year - 1, 1, 1), Date(sel.year - 1, 12, 31)))
    else Err(ValueError)
  }

  /** The month before year y, month m. */
  function PrevMonthOf(y: int, m: int): (int, int)
  {
    if m == 1 then (y - 1, 12) else (y, m - 1)
  }

  /** The day before the first of a month is the last day of the month
      before it. */
  lemma DayBeforeFirst(y: int, m: int)
    requires y >= 1 && 1 <= m <= 12 && (y, m) != (1, 1)
    ensures var (py, pm) := PrevMonthOf(y, m);
            && IsCivil(Date(py, pm, DaysInMonth(py, pm)))
            && ToOrdinal(Date(py, pm, DaysInMonth(py, pm))) + 1 == ToOrdinal(Date(y, m, 1))
  {
  }

  lemma PrevMonthFromOrdinal(y: int, m: int)
    requires y >= 1 && 1 <= m <= 12 && (y, m) != (1, 1)
    ensures var (py, pm) := PrevMonthOf(y, m);
            && ToOrdinal(Date(y, m, 1)) > 1
            && FromOrdinal(ToOrdinal(Date(y, m, 1)) - 1) == Date(py, pm, DaysInMonth(py, pm))
  {
    var (py, pm) := PrevMonthOf(y, m);
    DayBeforeFirst(y, m);
    FromToOrdinal(Date(py, pm, DaysInMonth(py, pm)));
  }

  /** The windows for "day": the day itself, and the day before. */
  lemma DayPeriods(sel: Date)
    requires InRange(sel)
    ensures var r := GetPeriods("day", sel);
            && (r.Err? <==> ToOrdinal(sel) == 1)
            && (r.Ok? ==> r.value.curFrom == sel && r.value.curTo == sel
                          && ToOrdinal(r.value.prevFrom) == ToOrdinal(sel) - 1
                          && r.value.prevTo == r.value.prevFrom)
  {
  }

  /** The windows for "month": the whole month of the selected day, and the
      whole month before it, across the year boundary in January. */
  lemma MonthPeriods(sel: Date)
    requires InRange(sel)
    ensures var r := GetPeriods("month", sel);
            var (py, pm) := PrevMonthOf(sel.year, sel.month);
            && (r.Err? <==> sel.year == 1 && sel.month == 1)
            && (r.Ok? ==> r.value == Periods(Date(sel.year, sel.month, 1),
                                             Date(sel.year, sel.month, DaysInMonth(sel.year, sel.month)),
                                             Date(py, pm, 1), Date(py, pm, DaysInMonth(py, pm))))
  {
    if (sel.year, sel.month) != (1, 1) {
      PrevMonthFromOrdinal(sel.year, sel.month);
    }
  }

  /** The windows for "year": the whole year, and the whole year before. */
  lemma YearPeriods(sel: Date)
    requires InRange(sel)
    ensures var r := GetPeriods("year", sel);
            && (r.Err? <==> sel.year == 1)
            && (r.Ok? ==> r.value == Periods(Date(sel.year, 1, 1), Date(sel.year, 12, 31),
                                             Date(sel.year - 1, 1, 1), Date(sel.year - 1, 12, 31)))
  {
  }

  /** Any other report_by raises ValueError. */
  lemma OtherPeriods(reportBy: string, sel: Date)
    requires InRange(sel) && !KnownReportBy(reportBy)
    ensures GetPeriods(reportBy, sel) == Err(ValueError)
  {
  }

  /** In every mode the current window holds the selected day, and the
      previous window ends the day before the current one starts: the two
      are adjacent and disjoint. */
  lemma PeriodsAdjacent(reportBy: string, sel: Date)
    requires InRange(sel)
    ensures var r := GetPeriods(reportBy, sel);
            r.Ok? ==>
              && ToOrdinal(r.value.curFrom) <= ToOrdinal(sel) <= ToOrdinal(r.value.curTo)
              && ToOrdinal(r.value.prevFrom) <= ToOrdinal(r.value.prevTo)
              && ToOrdinal(r.value.prevTo) + 1 == ToOrdinal(r.value.curFrom)
  {
    if reportBy == "month" && (sel.year, sel.month) != (1, 1) {
      PrevMonthFromOrdinal(sel.year, sel.month);
      DayBeforeFirst(sel.year, sel.month);
    } else if reportBy == "year" && sel.year != 1 {
      DayBeforeFirst(sel.year, 1);
    }
  }

  // ---- build_query_parts ----

  const Window := BetweenNamed("ih.invoice_date", "prev_from", "current_to")
  const Positive := Fixed("id.item_total > 0")

  function Head(r: Request): seq<Pred>
  {
    [Window] + Opt(WithoutFreeGoodAnyCase(r.displayQuantity), Positive)
  }

  function Base(prevFrom: int, currentTo: int): map<string, Value>
  {
    map["prev_from" := Day(prevFrom), "current_to" := Day(currentTo)]
  }

  function Facets(r: Request): seq<Facet>
  {
    []
    + [AnyFacet(r.warehouseIds, "ih.warehouse_id", "warehouse_ids")]
    + [AnyFacet(r.salesmanIds, "ih.salesman_id", "salesman_ids")]
  }

  function Expected(r: Request, prevFrom: int, currentTo: int): Query
  {
    Reference(Head(r), Base(prevFrom, currentTo), Facets(r), [], [])
  }

  /** build_query_parts over the window prev_from..current_to (as
      ordinals). */
  method BuildQueryParts(r: Request, prevFrom: int, currentTo: int)
    returns (joins: seq<string>, parts: seq<Pred>, params: map<string, Value>)
    ensures Query(joins, parts, params) == Expected(r, prevFrom, currentTo)
  {
    joins, parts, params := [], [], map[];
    parts := parts + [Window];
    params := params["prev_from" := Day(prevFrom)];
    params := params["current_to" := Day(currentTo)];
    if r.displayQuantity != "" && Lower(r.displayQuantity) == "without_free_good" {
      parts := parts + [Positive];
    }
    ghost var st, done := Stage(parts, params), [];
    assert st == Stage(Head(r), Base(prevFrom, currentTo));
    assert Stage(parts, params) == Run(st, done);
    parts, params, done := AddAnyFacet(parts, params, st, done, r.warehouseIds, "ih.warehouse_id", "warehouse_ids");
    parts, params, done := AddAnyFacet(parts, params, st, done, r.salesmanIds, "ih.salesman_id", "salesman_ids");
    ReferenceNoTail(Head(r), Base(prevFrom, currentTo), Facets(r), []);
  }

  /** The window comes first and binds both ends; `id.item_total > 0` is
      there exactly for without_free_good in any case; the warehouse and
      salesman fragments are there exactly when their lists are non-empty;
      there are never joins; every named parameter is bound. */
  lemma QueryShape(r: Request, prevFrom: int, currentTo: int)
    ensures var q := Expected(r, prevFrom, currentTo);
            && q.joins == []
            && q.parts[0] == Window
            && "prev_from" in q.params && q.params["prev_from"] == Day(prevFrom)
            && "current_to" in q.params && q.params["current_to"] == Day(currentTo)
            && (Positive in q.parts <==> WithoutFreeGoodAnyCase(r.displayQuantity))
            && (AnyNamed("ih.warehouse_id", "warehouse_ids") in q.parts <==> r.warehouseIds != [])
            && (AnyNamed("ih.salesman_id", "salesman_ids") in q.parts <==> r.salesmanIds != [])
            && AllBound(q.parts, q.params.Keys)
  {
    var fs, base := Facets(r), Base(prevFrom, currentTo);
    assert Dedup<string>([]) == [];
    ReferenceBase(Head(r), base, fs, [], [], "prev_from");
    ReferenceBase(Head(r), base, fs, [], [], "current_to");
    ReferenceBound(Head(r), base, fs, [], []);
    FacetPartsHas(fs, Positive);
    ReferenceFacet(Head(r), base, fs, [], [], 0);
    ReferenceFacet(Head(r), base, fs, [], [], 1);
  }
}
