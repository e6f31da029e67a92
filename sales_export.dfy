/** export_dynamic_report (sales_report/routes/export_xlsx.py) without its
    database and spreadsheet I/O: the request is normalised, the `$k` WHERE
    list is assembled, the rows the query returns are folded, and the
    workbook is laid out as a list of named sheets. */
module SalesExport {
  import opened Wrappers
  import opened Text
  import opened Calendar
  import opened Sorting
  import opened Granularity
  import opened Sql
  import opened ExportPeriods
  import opened Pivot
  import opened PivotFold
  import opened EntityFold
  import opened AggregatedSheet
  import opened SheetNames
  import opened Hierarchy
  import opened ExportRequest
  import opened SalesExportRows
  import opened SalesDefaultView

  /** The fields of SalesReportRequest the export reads. */
  datatype SalesRequest = SalesRequest(fromDate: string, toDate: string, searchType: Option<string>,
                                       displayQuantity: Option<string>, dataview: Option<string>,
                                       sel: Selection)

  /** The request once normalised. */
  datatype Settings = Settings(fromDay: int, toDay: int, searchType: string, displayQuantity: Option<string>,
                               sel: Selection, defaultView: bool, granularity: Granularity, deep: Level)

  const SearchTypeMessage := "search_type must be 'quantity' or 'amount'"

  /** The checks and defaults at the top of the route, in their order: the
      dates, then the search type; company ids default to [1]. */
  function Normalise(req: SalesRequest): (r: Result<Settings>)
    ensures ParseDates(req.fromDate, req.toDate).Err? ==> r == Err(BadRequest(DatesMessage))
    ensures ParseDates(req.fromDate, req.toDate).Ok? && SearchType(req.searchType, SearchTypeMessage).Err? ==>
              r == Err(BadRequest(SearchTypeMessage))
    ensures r.Ok? <==> ParseDates(req.fromDate, req.toDate).Ok? && SearchType(req.searchType, SearchTypeMessage).Ok?
    ensures r.Ok? ==>
              var s := r.value;
              ValidOrdinal(s.fromDay) && ValidOrdinal(s.toDay) &&
              (s.fromDay, s.toDay) == ParseDates(req.fromDate, req.toDate).value &&
              (s.searchType == "quantity" || s.searchType == "amount") &&
              s.sel.companyIds != [] &&
              s.sel == req.sel.(companyIds := CompanyIds(req.sel.companyIds)) &&
              s.defaultView == IsDefaultView(req.dataview) &&
              s.granularity == Dataview(req.dataview, s.fromDay, s.toDay) &&
              s.deep == GetDeepest(s.sel)
  {
    var dates := ParseDates(req.fromDate, req.toDate);
    var st := SearchType(req.searchType, SearchTypeMessage);
    if dates.Err? then Err(dates.failure)
    else if st.Err? then Err(st.failure)
    else
      var sel := req.sel.(companyIds := CompanyIds(req.sel.companyIds));
      Ok(Settings(dates.value.0, dates.value.1, st.value, req.displayQuantity, sel, IsDefaultView(req.dataview),
                  Dataview(req.dataview, dates.value.0, dates.value.1), GetDeepest(sel)))
  }

  // ----- the WHERE list -----

  /** The `_add` calls in their order, and the item category filter the
      route appends the same way. */
  function SalesFilters(sel: Selection): seq<AnyFilter>
  {
    [AnyFilter("ms.company_id", sel.companyIds), AnyFilter("ms.region_id", sel.regionIds),
     AnyFilter("ms.area_id", sel.areaIds), AnyFilter("ms.warehouse_id", sel.warehouseIds),
     AnyFilter("ms.route_id", sel.routeIds), AnyFilter("ms.salesman_id", sel.salesmanIds),
     AnyFilter("ms.item_id", sel.itemIds), AnyFilter("ms.channel_id", sel.customerChannelIds),
     AnyFilter("ms.customer_category_id", sel.customerCategoryIds), AnyFilter("ms.customer_id", sel.customerIds),
     AnyFilter("ms.item_category_id", sel.itemCategoryIds)]
  }

  const SalesFreeGood := "total_amount > 0"

  /** The WHERE list the route sends with the query. */
  function SalesWhere(s: Settings): Where
  {
    var w := Assemble(Start(s.fromDay, s.toDay), SalesFilters(s.sel));
    if FreeGood(s.searchType, s.displayQuantity) then Where(w.parts + [Fixed(SalesFreeGood)], w.params, w.next)
    else w
  }

  /** The calls as the route makes them, one after the other. */
  method BuildWhere(s: Settings) returns (parts: seq<Pred>, params: seq<Value>)
    ensures Where(parts, params, SalesWhere(s).next) == SalesWhere(s)
  {
    var fs := SalesFilters(s.sel);
    var w0 := Start(s.fromDay, s.toDay);
    var idx;
    parts, params, idx := AddHierarchyFilters(s, w0);
    parts, params, idx := AddFilter(parts, params, idx, w0, fs, 6, "ms.item_id", s.sel.itemIds);
    parts, params, idx := AddFilter(parts, params, idx, w0, fs, 7, "ms.channel_id", s.sel.customerChannelIds);
    parts, params, idx := AddFilter(parts, params, idx, w0, fs, 8, "ms.customer_category_id", s.sel.customerCategoryIds);
    parts, params, idx := AddFilter(parts, params, idx, w0, fs, 9, "ms.customer_id", s.sel.customerIds);
    parts, params, idx := AddFilter(parts, params, idx, w0, fs, 10, "ms.item_category_id", s.sel.itemCategoryIds);
    assert fs[..11] == fs;
    if s.searchType == "quantity" && s.displayQuantity == Some("without_free_good") {
      parts := parts + [Fixed(SalesFreeGood)];
    }
  }

  /** The first six calls, company down to salesman. */
  method AddHierarchyFilters(s: Settings, w0: Where) returns (parts: seq<Pred>, params: seq<Value>, idx: nat)
    ensures Where(parts, params, idx) == Assemble(w0, SalesFilters(s.sel)[..6])
  {
    var fs := SalesFilters(s.sel);
    parts, params, idx := w0.parts, w0.params, w0.next;
    assert fs[..0] == [];
    parts, params, idx := AddFilter(parts, params, idx, w0, fs, 0, "ms.company_id", s.sel.companyIds);
    parts, params, idx := AddFilter(parts, params, idx, w0, fs, 1, "ms.region_id", s.sel.regionIds);
    parts, params, idx := AddFilter(parts, params, idx, w0, fs, 2, "ms.area_id", s.sel.areaIds);
    parts, params, idx := AddFilter(parts, params, idx, w0, fs, 3, "ms.warehouse_id", s.sel.warehouseIds);
    parts, params, idx := AddFilter(parts, params, idx, w0, fs, 4, "ms.route_id", s.sel.routeIds);
    parts, params, idx := AddFilter(parts, params, idx, w0, fs, 5, "ms.salesman_id", s.sel.salesmanIds);
  }

  /** The date range is $1 and $2, the placeholders run $1 .. $n with
      n = len(params), the free-good predicate is there exactly for
      quantity reports without free goods, and since company ids are never
      empty after normalisation the company filter is always $3. */
  lemma SalesWhereShape(s: Settings)
    requires s.sel.companyIds != []
    ensures var w := SalesWhere(s);
            |w.parts| > 1 && |w.params| > 2 &&
            Consecutive(w) && w.parts[0] == BetweenPos(InvoiceDate, 1, 2) &&
            w.params[..2] == [Day(s.fromDay), Day(s.toDay)] &&
            w.parts[1] == AnyPos("ms.company_id", 3) && w.params[2] == Ids(s.sel.companyIds) &&
            (Fixed(SalesFreeGood) in w.parts <==> FreeGood(s.searchType, s.displayQuantity)) &&
            var a := Assemble(Start(s.fromDay, s.toDay), SalesFilters(s.sel));
            w.params == a.params && |a.parts| <= |w.parts| && w.parts[..|a.parts|] == a.parts
  {
    var fs := SalesFilters(s.sel);
    var a := Assemble(Start(s.fromDay, s.toDay), fs);
    AssembledWhere(s.fromDay, s.toDay, fs);
    AssembledParts(s.fromDay, s.toDay, fs);
    AssembleFirst(s.fromDay, s.toDay, fs);
    assert Fixed(SalesFreeGood) !in a.parts by {
      forall j | 0 <= j < |a.parts| ensures !a.parts[j].Fixed? {
        if j > 0 {
          var f :| f in fs && f.ids != [] && a.parts[j] == AnyPos(f.col, j + 2) && a.params[j + 1] == Ids(f.ids);
        }
      }
    }
    if FreeGood(s.searchType, s.displayQuantity) {
      FixedConsecutive(a, SalesFreeGood);
      assert (a.parts + [Fixed(SalesFreeGood)])[|a.parts|] == Fixed(SalesFreeGood);
    }
  }

  // ----- the period list -----

  /** list(periods_set), the row keys in the order first seen. */
  function PeriodList(rows: seq<SalesRow>, g: Granularity, fromDay: int, toDay: int): (ps: seq<string>)
    requires ValidOrdinal(fromDay) && ValidOrdinal(toDay)
  {
    Dedup(seq(|rows|, i requires 0 <= i < |rows| => PeriodFinal(rows[i], g, fromDay, toDay)))
  }

  /** The list holds each key of periods_set once. */
  lemma PeriodListSpec(rows: seq<SalesRow>, g: Granularity, fromDay: int, toDay: int)
    requires ValidOrdinal(fromDay) && ValidOrdinal(toDay)
    ensures NoDup(PeriodList(rows, g, fromDay, toDay))
    ensures forall p :: p in PeriodList(rows, g, fromDay, toDay) <==> p in PeriodsOf(rows, RowPeriodKey(g, fromDay, toDay))
  {
    var cs := Contributions(rows, RowPeriodKey(g, fromDay, toDay));
    assert PeriodList(rows, g, fromDay, toDay) == Dedup(Columns(cs)) by {
      var keys := seq(|rows|, i requires 0 <= i < |rows| => PeriodFinal(rows[i], g, fromDay, toDay));
      assert keys == Columns(cs);
    }
    DedupColumns(cs);
  }

  /** sort_periods(list(periods_set), dataview) */
  function SortedPeriods(rows: seq<SalesRow>, s: Settings): Result<seq<string>>
    requires ValidOrdinal(s.fromDay) && ValidOrdinal(s.toDay)
  {
    SortPeriods(PeriodList(rows, s.granularity, s.fromDay, s.toDay), s.granularity)
  }

  // ----- the per-company sheets -----

  /** Which rows belong to company cid. */
  function CompanyMask(rows: seq<SalesRow>, cid: int): (m: seq<bool>)
    ensures |m| == |rows|
  {
    seq(|rows|, i requires 0 <= i < |rows| => Get(rows[i], "company_id") == Some(cid))
  }

  /** The rows whose contributions a mask keeps, for any contribution list
      with one entry per row. */
  lemma PickedRows(rows: seq<SalesRow>, cs: seq<Contribution<string>>, cid: int)
    requires |cs| == |rows|
    ensures forall c :: c in Pick(cs, CompanyMask(rows, cid)) <==>
              exists i :: 0 <= i < |rows| && Get(rows[i], "company_id") == Some(cid) && c == cs[i]
  {
    var mask := CompanyMask(rows, cid);
    forall c ensures c in Pick(cs, mask) <==>
                     exists i :: 0 <= i < |rows| && Get(rows[i], "company_id") == Some(cid) && c == cs[i]
    {
      PickHas(cs, mask, c);
      if exists i :: 0 <= i < |rows| && Get(rows[i], "company_id") == Some(cid) && c == cs[i] {
        var i :| 0 <= i < |rows| && Get(rows[i], "company_id") == Some(cid) && c == cs[i];
        assert mask[i];
      }
    }
  }

  /** The per-company loop keys a weekly row by the unclipped ISO week. */
  function CompanyPeriodAsWritten(r: SalesRow, g: Granularity): string
  {
    if g == Weekly then IsoWeekToRange(r.period) else r.period
  }

  /** CompanyPeriodAsWritten as a function of the row. */
  function CompanyRowKey(g: Granularity): SalesRow -> string
  {
    r => CompanyPeriodAsWritten(r, g)
  }

  /** Every row's comp_map addition, whichever company it belongs to. */
  function CompanyRowContributions(rows: seq<SalesRow>, g: Granularity): (cs: seq<Contribution<string>>)
    ensures |cs| == |rows|
  {
    Contributions(rows, CompanyRowKey(g))
  }

  /** The rows of company cid as the per-company loop adds them, in order. */
  function CompanyContributions(rows: seq<SalesRow>, g: Granularity, cid: int): seq<Contribution<string>>
  {
    Pick(CompanyRowContributions(rows, g), CompanyMask(rows, cid))
  }

  /** A company's additions are exactly those of its rows, each under the
      row's item and its unclipped period. */
  lemma CompanyContributionsMembers(rows: seq<SalesRow>, g: Granularity, cid: int)
    ensures forall c :: c in CompanyContributions(rows, g, cid) <==>
              exists i :: 0 <= i < |rows| && Get(rows[i], "company_id") == Some(cid) &&
                c == Contribution(KeyOf(rows[i]), if g == Weekly then IsoWeekToRange(rows[i].period) else rows[i].period,
                                  ValueOf(rows[i]))
  {
    PickedRows(rows, CompanyRowContributions(rows, g), cid);
  }

  /** One more row: its contribution is added when it belongs to the company. */
  lemma CompanyContributionsSnoc(rows: seq<SalesRow>, i: nat, g: Granularity, cid: int)
    requires i < |rows|
    ensures CompanyContributions(rows[..i + 1], g, cid) ==
            CompanyContributions(rows[..i], g, cid) +
            (if Get(rows[i], "company_id") == Some(cid)
             then [Contribution(KeyOf(rows[i]), if g == Weekly then IsoWeekToRange(rows[i].period) else rows[i].period,
                                ValueOf(rows[i]))]
             else [])
  {
    var b := CompanyRowContributions(rows[..i], g);
    var x := ContributionOf(rows[i], CompanyRowKey(g));
    ContributionsSnoc(rows, i, CompanyRowKey(g));
    assert CompanyMask(rows[..i + 1], cid) == CompanyMask(rows[..i], cid) + [Get(rows[i], "company_id") == Some(cid)];
    PickSnoc(b, CompanyMask(rows[..i], cid), x, Get(rows[i], "company_id") == Some(cid));
  }

  /** The company rows keyed as the summary keys them: the evident intent
      of the per-company loop. */
  function IntendedCompanyContributions(rows: seq<SalesRow>, g: Granularity, fromDay: int, toDay: int, cid: int)
    : seq<Contribution<string>>
    requires ValidOrdinal(fromDay) && ValidOrdinal(toDay)
  {
    Pick(Contributions(rows, RowPeriodKey(g, fromDay, toDay)), CompanyMask(rows, cid))
  }

  /** Under the summary's key every value a company sheet adds lands in one
      of the sheet's period columns, which are the summary's. */
  lemma CompanyColumnsListed(rows: seq<SalesRow>, g: Granularity, fromDay: int, toDay: int, cid: int)
    requires ValidOrdinal(fromDay) && ValidOrdinal(toDay)
    ensures forall c :: c in IntendedCompanyContributions(rows, g, fromDay, toDay, cid) ==>
              c.column in PeriodList(rows, g, fromDay, toDay)
  {
    PickedRows(rows, Contributions(rows, RowPeriodKey(g, fromDay, toDay)), cid);
    PeriodListSpec(rows, g, fromDay, toDay);
    PeriodsOfMembers(rows, RowPeriodKey(g, fromDay, toDay));
  }

  /** Outside the weekly view the loop as written already keys rows as the
      summary does, so its values all land in listed columns. */
  lemma CompanyAsWrittenOffWeekly(rows: seq<SalesRow>, g: Granularity, fromDay: int, toDay: int, cid: int)
    requires ValidOrdinal(fromDay) && ValidOrdinal(toDay) && g != Weekly
    ensures CompanyContributions(rows, g, cid) == IntendedCompanyContributions(rows, g, fromDay, toDay, cid)
    ensures forall c :: c in CompanyContributions(rows, g, cid) ==> c.column in PeriodList(rows, g, fromDay, toDay)
  {
    assert CompanyRowContributions(rows, g) == Contributions(rows, RowPeriodKey(g, fromDay, toDay));
    CompanyColumnsListed(rows, g, fromDay, toDay, cid);
  }

  /** A week that ends by to_date gets the same key from the loop as
      written as from the summary. */
  lemma CompanyWeekAsWrittenListed(y: int, w: int, m: int, fromDay: int, toDay: int, r: SalesRow)
    requires ValidOrdinal(fromDay) && ValidOrdinal(toDay)
    requires 1 <= y <= MaxYear && 1 <= w <= WeeksInIsoYear(y)
    requires m == Week1Monday(y) + 7 * (w - 1) && ValidOrdinal(m + 6)
    requires r.period == Pad4(y) + "-" + Pad2(w)
    requires m + 6 <= toDay
    ensures CompanyPeriodAsWritten(r, Weekly) in PeriodList([r], Weekly, fromDay, toDay)
  {
    AsWrittenFullWeek(y, w, m, r);
    PeriodFinalOfIsoWeek(y, w, m, fromDay, toDay, r);
    PeriodListOfOne(r, Weekly, fromDay, toDay);
  }

  /** With to_date inside the row's ISO week, the company loop files the
      row under the full week, which is not among the period columns, so
      its value appears on no column of the company sheet. */
  lemma CompanyWeekAsWrittenMissed(y: int, w: int, m: int, fromDay: int, toDay: int, r: SalesRow)
    requires ValidOrdinal(fromDay) && ValidOrdinal(toDay)
    requires 1 <= y <= MaxYear && 1 <= w <= WeeksInIsoYear(y)
    requires m == Week1Monday(y) + 7 * (w - 1) && ValidOrdinal(m + 6)
    requires r.period == Pad4(y) + "-" + Pad2(w)
    requires m <= toDay < m + 6
    ensures CompanyPeriodAsWritten(r, Weekly) !in PeriodList([r], Weekly, fromDay, toDay)
  {
    AsWrittenFullWeek(y, w, m, r);
    SummaryCutWeek(y, w, m, fromDay, toDay, r);
    RangeNotListed(CompanyPeriodAsWritten(r, Weekly), PeriodList([r], Weekly, fromDay, toDay), m, m + 6, toDay);
  }

  /** A range is not in a one-range list that ends elsewhere. */
  lemma RangeNotListed(x: string, ps: seq<string>, s: int, e1: int, e2: int)
    requires ValidOrdinal(s) && ValidOrdinal(e1) && ValidOrdinal(e2) && e1 != e2
    requires x == RangeLabel(s, e1) && ps == [RangeLabel(s, e2)]
    ensures x !in ps
  {
    RangeLabelEnds(s, e1, e2);
  }

  lemma AsWrittenFullWeek(y: int, w: int, m: int, r: SalesRow)
    requires 1 <= y <= MaxYear && 1 <= w <= WeeksInIsoYear(y)
    requires m == Week1Monday(y) + 7 * (w - 1) && ValidOrdinal(m + 6)
    requires r.period == Pad4(y) + "-" + Pad2(w)
    ensures ValidOrdinal(m) && CompanyPeriodAsWritten(r, Weekly) == RangeLabel(m, m + 6)
  {
    IsoWeekToRangeOfWeek(y, w, m);
  }

  lemma SummaryCutWeek(y: int, w: int, m: int, fromDay: int, toDay: int, r: SalesRow)
    requires ValidOrdinal(fromDay) && ValidOrdinal(toDay)
    requires 1 <= y <= MaxYear && 1 <= w <= WeeksInIsoYear(y)
    requires m == Week1Monday(y) + 7 * (w - 1) && ValidOrdinal(m + 6)
    requires r.period == Pad4(y) + "-" + Pad2(w)
    requires toDay < m + 6
    ensures ValidOrdinal(m) && PeriodList([r], Weekly, fromDay, toDay) == [RangeLabel(m, toDay)]
  {
    PeriodFinalOfIsoWeek(y, w, m, fromDay, toDay, r);
    PeriodListOfOne(r, Weekly, fromDay, toDay);
  }

  lemma PeriodListOfOne(r: SalesRow, g: Granularity, fromDay: int, toDay: int)
    requires ValidOrdinal(fromDay) && ValidOrdinal(toDay)
    ensures PeriodList([r], g, fromDay, toDay) == [PeriodFinal(r, g, fromDay, toDay)]
  {
    var keys := seq(1, i requires 0 <= i < 1 => PeriodFinal([r][i], g, fromDay, toDay));
    assert keys == [PeriodFinal(r, g, fromDay, toDay)];
    assert keys[..0] == [];
    assert Dedup(keys[..0]) == [];
  }

  /** Two ranges from the same day differ when their ends do. */
  lemma RangeLabelEnds(s: int, e1: int, e2: int)
    requires ValidOrdinal(s) && ValidOrdinal(e1) && ValidOrdinal(e2) && e1 != e2
    ensures RangeLabel(s, e1) != RangeLabel(s, e2)
  {
    if RangeLabel(s, e1) == RangeLabel(s, e2) {
      SplitRangeLabel(s, e1);
      SplitRangeLabel(s, e2);
      ParseFormat(e1);
      ParseFormat(e2);
    }
  }

  /** The comp_map loop over the rows. */
  method CompanyPivot(rows: seq<SalesRow>, g: Granularity, cid: int) returns (pm: PivotMap<string>)
    ensures pm == PivotOf(CompanyContributions(rows, g, cid))
  {
    pm := PivotMap([], map[]);
    var i := 0;
    while i < |rows|
      invariant 0 <= i <= |rows|
      invariant pm == PivotOf(CompanyContributions(rows[..i], g, cid))
    {
      CompanyContributionsSnoc(rows, i, g, cid);
      ghost var cs := CompanyContributions(rows[..i], g, cid);
      var r := rows[i];
      if Get(r, "company_id") == Some(cid) {
        var period := if g == Weekly then IsoWeekToRange(r.period) else r.period;
        var c := Contribution(KeyOf(r), period, ValueOf(r));
        PivotOfSnoc(cs, c);
        pm := AddRow(pm, c);
      } else {
        assert cs + [] == cs;
      }
      i := i + 1;
    }
    assert rows[..i] == rows;
  }

  // ----- the workbook -----

  /** A sheet of the workbook: its name and its rows. */
  datatype Worksheet = Worksheet(name: string, rows: seq<Row>)

  /** No two sheets share a name, compared without case. */
  predicate DistinctNames(ws: seq<Worksheet>)
  {
    forall i, j :: 0 <= i < j < |ws| ==> Lower(ws[i].name) != Lower(ws[j].name)
  }

  /** Sheets named by `_sheet` between two states of used_names: each name
      was new, is recorded, and no two clash. */
  ghost predicate Fresh(ws: seq<Worksheet>, before: set<string>, after: set<string>)
  {
    before <= after &&
    (forall i :: 0 <= i < |ws| ==> Lower(ws[i].name) in after && Lower(ws[i].name) !in before) &&
    DistinctNames(ws)
  }

  lemma FreshAppend(a: seq<Worksheet>, b: seq<Worksheet>, u0: set<string>, u1: set<string>, u2: set<string>)
    requires Fresh(a, u0, u1) && Fresh(b, u1, u2)
    ensures Fresh(a + b, u0, u2)
  {
    var ab := a + b;
    forall i, j | 0 <= i < j < |ab| ensures Lower(ab[i].name) != Lower(ab[j].name) {
      if j >= |a| && i < |a| {
        assert Lower(ab[i].name) in u1 && Lower(ab[j].name) !in u1;
      }
    }
  }

  lemma FreshSnoc(ws: seq<Worksheet>, w: Worksheet, before: set<string>, mid: set<string>, after: set<string>)
    requires Fresh(ws, before, mid) && Lower(w.name) !in mid && after == mid + {Lower(w.name)}
    ensures Fresh(ws + [w], before, after)
  {
    var r := ws + [w];
    forall i | 0 <= i < |r| ensures Lower(r[i].name) in after && Lower(r[i].name) !in before {
      if i < |ws| {
        assert r[i] == ws[i];
      }
    }
    forall i, j | 0 <= i < j < |r| ensures Lower(r[i].name) != Lower(r[j].name) {
      assert r[i] == ws[i];
      if j < |ws| {
        assert r[j] == ws[j];
      }
    }
  }

  /** One more sheet keeps the loop's per-sheet facts. */
  lemma SheetsSnoc(prev: seq<Worksheet>, w: Worksheet, want: seq<seq<Row>>, bases: seq<string>)
    requires |prev| < |want| && |prev| < |bases|
    requires forall k :: 0 <= k < |prev| ==> prev[k].rows == want[k]
    requires forall k :: 0 <= k < |prev| ==> NamedAfter(prev[k].name, bases[k])
    requires w.rows == want[|prev|] && NamedAfter(w.name, bases[|prev|])
    ensures forall k :: 0 <= k < |prev| + 1 ==> (prev + [w])[k].rows == want[k]
    ensures forall k :: 0 <= k < |prev| + 1 ==> NamedAfter((prev + [w])[k].name, bases[k])
  {
  }

  /** "summary" is taken first, so the sheets named after it never clash
      with it or with each other. */
  lemma FreshAfterSummary(first: Worksheet, rest: seq<Worksheet>, after: set<string>)
    requires first.name == "summary" && Fresh(rest, {"summary"}, after)
    ensures DistinctNames([first] + rest)
  {
    assert Lower("summary") == "summary";
    var ws := [first] + rest;
    forall i, j | 0 <= i < j < |ws| ensures Lower(ws[i].name) != Lower(ws[j].name) {
      if i > 0 {
        assert ws[i] == rest[i - 1] && ws[j] == rest[j - 1];
      }
    }
  }

  /** The name a sheet ends up with, given the safe name of its entity. */
  ghost predicate NamedAfter(safe: string, base: string)
  {
    safe == base || exists k :: 2 <= k && safe == Candidate(base, k)
  }

  /** `workbook.add_worksheet(_sheet(name))` for rows already laid out. */
  method NameSheet(namer: SheetNamer, name: string, rows: seq<Row>) returns (w: Worksheet)
    modifies namer
    ensures w.rows == rows
    ensures NamedAfter(w.name, SafeSheetName(Some(name)))
    ensures Lower(w.name) !in old(namer.used) && namer.used == old(namer.used) + {Lower(w.name)}
  {
    var safe := namer.Sheet(Some(name));
    w := Worksheet(safe, rows);
  }

  /** name_maps.get(cid, f"Company {cid}") */
  function CompanyName(names: map<int, string>, cid: int): string
  {
    if cid in names then names[cid] else "Company " + IntToString(cid)
  }

  /** name_map.get(ent_id, str(ent_id)) */
  function EntityName(names: map<int, string>, id: int): string
  {
    if id in names then names[id] else IntToString(id)
  }

  /** name_maps.get(key, {}) */
  function NamesOf(nameMaps: map<string, map<int, string>>, key: string): map<int, string>
  {
    if key in nameMaps then nameMaps[key] else map[]
  }

  function CompanySheet(rows: seq<SalesRow>, g: Granularity, cid: int, periods: seq<string>, pretty: seq<string>)
    : seq<Row>
  {
    var cs := CompanyContributions(rows, g, cid);
    PivotOfOrder(cs);
    Sheet(Entries(PivotOf(cs)), periods, pretty)
  }

  /** The per-company sheets, one for each requested company in order. */
  method CompanySheets(namer: SheetNamer, rows: seq<SalesRow>, g: Granularity,
                       cids: seq<int>, names: map<int, string>, periods: seq<string>)
    returns (sheets: seq<Worksheet>)
    requires NoDup(periods) && PrettyPeriods(periods).Ok?
    modifies namer
    ensures Fresh(sheets, old(namer.used), namer.used)
    ensures |sheets| == |cids|
    ensures forall i :: 0 <= i < |cids| ==>
              sheets[i].rows == CompanySheet(rows, g, cids[i], periods, PrettyPeriods(periods).value) &&
              NamedAfter(sheets[i].name, SafeSheetName(Some(CompanyName(names, cids[i]))))
  {
    ghost var want := seq(|cids|, k requires 0 <= k < |cids| =>
                            CompanySheet(rows, g, cids[k], periods, PrettyPeriods(periods).value));
    ghost var bases := seq(|cids|, k requires 0 <= k < |cids| => SafeSheetName(Some(CompanyName(names, cids[k]))));
    sheets := [];
    var i := 0;
    while i < |cids|
      invariant 0 <= i <= |cids| && |sheets| == i
      invariant Fresh(sheets, old(namer.used), namer.used)
      invariant forall k :: 0 <= k < i ==> sheets[k].rows == want[k]
      invariant forall k :: 0 <= k < i ==> NamedAfter(sheets[k].name, bases[k])
    {
      ghost var mid := namer.used;
      var w := CompanySheetOf(namer, rows, g, cids[i], names, periods);
      assert w.rows == want[i] && NamedAfter(w.name, bases[i]);
      FreshSnoc(sheets, w, old(namer.used), mid, namer.used);
      SheetsSnoc(sheets, w, want, bases);
      sheets := sheets + [w];
      i := i + 1;
    }
  }

  /** The sheet of one company: comp_map, write_aggregated_sheet, and its
      name. */
  method CompanySheetOf(namer: SheetNamer, rows: seq<SalesRow>, g: Granularity, cid: int,
                        names: map<int, string>, periods: seq<string>)
    returns (w: Worksheet)
    requires NoDup(periods) && PrettyPeriods(periods).Ok?
    modifies namer
    ensures w.rows == CompanySheet(rows, g, cid, periods, PrettyPeriods(periods).value)
    ensures NamedAfter(w.name, SafeSheetName(Some(CompanyName(names, cid))))
    ensures Lower(w.name) !in old(namer.used) && namer.used == old(namer.used) + {Lower(w.name)}
  {
    var pm := CompanyPivot(rows, g, cid);
    PivotOfOrder(CompanyContributions(rows, g, cid));
    var r := WriteAggregatedSheet(Entries(pm), periods);
    w := NameSheet(namer, CompanyName(names, cid), r.value);
  }

  /** The entity id of a key of one kind: a plain id, or the id of a
      ("route", id) or ("salesman", id) pair. */
  function KeyFor(kind: Option<string>, id: int): EntityKey
  {
    match kind
    case None => Plain(id)
    case Some(k) => Tagged(k, id)
  }

  predicate OfKind(e: EntityKey, kind: Option<string>)
  {
    match kind
    case None => e.Plain?
    case Some(k) => e.Tagged? && e.kind == k
  }

  /** The ids of entity_map's keys of one kind, in insertion order. */
  function KindIds(order: seq<EntityKey>, kind: Option<string>): (ids: seq<int>)
    ensures forall i :: 0 <= i < |ids| ==> KeyFor(kind, ids[i]) in order
  {
    if |order| == 0 then []
    else
      var n := |order| - 1;
      KindIds(order[..n], kind) + (if OfKind(order[n], kind) then [order[n].id] else [])
  }

  /** Every key of the kind has a sheet. */
  lemma {:induction false} KindIdsCover(order: seq<EntityKey>, kind: Option<string>, e: EntityKey)
    requires e in order && OfKind(e, kind)
    ensures e.id in KindIds(order, kind) && KeyFor(kind, e.id) == e
  {
    var n := |order| - 1;
    if order[n] != e {
      assert e in order[..n] by {
        var k :| 0 <= k < |order| && order[k] == e;
        assert order[..n][k] == e;
      }
      KindIdsCover(order[..n], kind, e);
    }
  }

  /** Every key in the insertion order has a well-formed pivot. */
  ghost predicate Complete(ep: EntityPivot<EntityKey, string>)
  {
    forall e :: e in ep.order ==> e in ep.maps && WellFormed(ep.maps[e])
  }

  function KindSheets(ep: EntityPivot<EntityKey, string>, kind: Option<string>,
                      periods: seq<string>, pretty: seq<string>): seq<seq<Row>>
    requires Complete(ep)
  {
    var ids := KindIds(ep.order, kind);
    seq(|ids|, i requires 0 <= i < |ids| => Sheet(Entries(ep.maps[KeyFor(kind, ids[i])]), periods, pretty))
  }

  /** The entity pivots the fold builds are complete. */
  lemma EntityPivotsComplete(rows: seq<SalesRow>, g: Granularity, fromDay: int, toDay: int, deep: Level, sel: Selection)
    requires ValidOrdinal(fromDay) && ValidOrdinal(toDay)
    ensures Complete(FanOut(RoutedRows(rows, RowPeriodKey(g, fromDay, toDay), deep, sel)))
  {
    var rs := RoutedRows(rows, RowPeriodKey(g, fromDay, toDay), deep, sel);
    forall i | 0 <= i < |rs| ensures NoDup(rs[i].targets) {
      TargetsSpec(rows[i], deep, sel);
    }
    FanOutSpec(rs);
    DedupMembers(AllTargets(rs));
    forall e | e in FanOut(rs).maps ensures WellFormed(FanOut(rs).maps[e]) {
      PivotOfOrder(ContribsFor(rs, e));
    }
  }

  /** `_add(map_data, name_map)`: a sheet per entity of the kind, in
      insertion order. */
  method EntitySheets(namer: SheetNamer, ep: EntityPivot<EntityKey, string>, kind: Option<string>,
                      names: map<int, string>, periods: seq<string>)
    returns (sheets: seq<Worksheet>)
    requires Complete(ep)
    requires NoDup(periods) && PrettyPeriods(periods).Ok?
    modifies namer
    ensures Fresh(sheets, old(namer.used), namer.used)
    ensures var ids := KindIds(ep.order, kind);
            |sheets| == |ids| &&
            forall i :: 0 <= i < |ids| ==>
              sheets[i].rows == KindSheets(ep, kind, periods, PrettyPeriods(periods).value)[i] &&
              NamedAfter(sheets[i].name, SafeSheetName(Some(EntityName(names, ids[i]))))
  {
    var ids := KindIds(ep.order, kind);
    ghost var want := KindSheets(ep, kind, periods, PrettyPeriods(periods).value);
    ghost var bases := seq(|ids|, k requires 0 <= k < |ids| => SafeSheetName(Some(EntityName(names, ids[k]))));
    sheets := [];
    var i := 0;
    while i < |ids|
      invariant 0 <= i <= |ids| && |sheets| == i
      invariant Fresh(sheets, old(namer.used), namer.used)
      invariant forall k :: 0 <= k < i ==> sheets[k].rows == want[k]
      invariant forall k :: 0 <= k < i ==> NamedAfter(sheets[k].name, bases[k])
    {
      ghost var mid := namer.used;
      var w := EntitySheetOf(namer, ep, KeyFor(kind, ids[i]), EntityName(names, ids[i]), periods);
      assert w.rows == want[i] && NamedAfter(w.name, bases[i]);
      FreshSnoc(sheets, w, old(namer.used), mid, namer.used);
      SheetsSnoc(sheets, w, want, bases);
      sheets := sheets + [w];
      i := i + 1;
    }
  }

  /** The route and salesman sheets of the deepest level, routes first,
      each kind only when the selection names some of it. */
  method RouteSalesmanSheets(namer: SheetNamer, ep: EntityPivot<EntityKey, string>, sel: Selection,
                             nameMaps: map<string, map<int, string>>, periods: seq<string>)
    returns (more: seq<Worksheet>)
    requires Complete(ep)
    requires NoDup(periods) && PrettyPeriods(periods).Ok?
    modifies namer
    ensures Fresh(more, old(namer.used), namer.used)
    ensures var pretty := PrettyPeriods(periods).value;
            var want := (if sel.routeIds != [] then KindSheets(ep, Some("route"), periods, pretty) else []) +
                        (if sel.salesmanIds != [] then KindSheets(ep, Some("salesman"), periods, pretty) else []);
            |more| == |want| && forall i :: 0 <= i < |want| ==> more[i].rows == want[i]
  {
    ghost var pretty := PrettyPeriods(periods).value;
    ghost var u0 := namer.used;
    var a: seq<Worksheet> := [];
    if sel.routeIds != [] {
      a := EntitySheets(namer, ep, Some("route"), NamesOf(nameMaps, "route"), periods);
    }
    ghost var wa: seq<seq<Row>> := if sel.routeIds != [] then KindSheets(ep, Some("route"), periods, pretty) else [];
    ghost var u1 := namer.used;
    var b: seq<Worksheet> := [];
    if sel.salesmanIds != [] {
      b := EntitySheets(namer, ep, Some("salesman"), NamesOf(nameMaps, "salesman"), periods);
    }
    ghost var wb: seq<seq<Row>> := if sel.salesmanIds != [] then KindSheets(ep, Some("salesman"), periods, pretty) else [];
    FreshAppend(a, b, u0, u1, namer.used);
    RowsOfAppend(a, b, wa, wb);
    more := a + b;
  }

  /** Two runs of sheets written one after the other. */
  lemma RowsOfAppend(a: seq<Worksheet>, b: seq<Worksheet>, wa: seq<seq<Row>>, wb: seq<seq<Row>>)
    requires |a| == |wa| && forall i :: 0 <= i < |wa| ==> a[i].rows == wa[i]
    requires |b| == |wb| && forall i :: 0 <= i < |wb| ==> b[i].rows == wb[i]
    ensures |a + b| == |wa + wb| && forall i :: 0 <= i < |wa + wb| ==> (a + b)[i].rows == (wa + wb)[i]
  {
  }

  /** One sheet of `_add`: write_aggregated_sheet on the entity's pivot,
      under its name. */
  method EntitySheetOf(namer: SheetNamer, ep: EntityPivot<EntityKey, string>, e: EntityKey, name: string,
                       periods: seq<string>)
    returns (w: Worksheet)
    requires Complete(ep) && e in ep.order
    requires NoDup(periods) && PrettyPeriods(periods).Ok?
    modifies namer
    ensures w.rows == Sheet(Entries(ep.maps[e]), periods, PrettyPeriods(periods).value)
    ensures NamedAfter(w.name, SafeSheetName(Some(name)))
    ensures Lower(w.name) !in old(namer.used) && namer.used == old(namer.used) + {Lower(w.name)}
  {
    var r := WriteAggregatedSheet(Entries(ep.maps[e]), periods);
    w := NameSheet(namer, name, r.value);
  }

  /** The rows of the sheets that follow the summary, level by level. */
  function LevelSheets(rows: seq<SalesRow>, s: Settings, periods: seq<string>, pretty: seq<string>): seq<seq<Row>>
    requires ValidOrdinal(s.fromDay) && ValidOrdinal(s.toDay)
  {
    var ep := FanOut(RoutedRows(rows, RowPeriodKey(s.granularity, s.fromDay, s.toDay), s.deep, s.sel));
    EntityPivotsComplete(rows, s.granularity, s.fromDay, s.toDay, s.deep, s.sel);
    if s.deep == Company then
      seq(|s.sel.companyIds|, i requires 0 <= i < |s.sel.companyIds| =>
        CompanySheet(rows, s.granularity, s.sel.companyIds[i], periods, pretty))
    else if s.deep == RouteSalesman then
      (if s.sel.routeIds != [] then KindSheets(ep, Some("route"), periods, pretty) else []) +
      (if s.sel.salesmanIds != [] then KindSheets(ep, Some("salesman"), periods, pretty) else [])
    else if s.deep in {Region, Area, Warehouse, CustomerChannel, CustomerCategory, Customer} then
      KindSheets(ep, None, periods, pretty)
    else []
  }

  /** The header names of the default view. */
  function DefaultNames(nameMaps: map<string, map<int, string>>, level: Level, ids: seq<int>): seq<string>
  {
    var key := LevelName(level);
    seq(|ids|, k requires 0 <= k < |ids| =>
      if key in nameMaps && ids[k] in nameMaps[key] then nameMaps[key][ids[k]] else IntToString(ids[k]))
  }

  /** The single sheet of the default view, reading each row's entity from
      entity_type + "_id" as the route does. */
  function DefaultViewSheet(rows: seq<SalesRow>, s: Settings, nameMaps: map<string, map<int, string>>): seq<Row>
  {
    var level := DefaultLevel(s.sel);
    var ids := SelectedIds(s.sel, level);
    var cs := DefaultContributions(rows, DefaultColumnAsWritten(level), ids);
    PivotOfOrder(cs);
    DefaultSheet(Entries(PivotOf(cs)), ids, DefaultNames(nameMaps, level, ids))
  }

  /** The summary sheet of the other views. */
  function SummarySheet(rows: seq<SalesRow>, s: Settings, periods: seq<string>, pretty: seq<string>): seq<Row>
    requires ValidOrdinal(s.fromDay) && ValidOrdinal(s.toDay)
  {
    var cs := Contributions(rows, RowPeriodKey(s.granularity, s.fromDay, s.toDay));
    PivotOfOrder(cs);
    Sheet(Entries(PivotOf(cs)), periods, pretty)
  }

  /** The route after its query, as written: the default view reads
      entity_type + "_id" and the company sheets key weeks unclipped.
      `rows` are the rows the query returns,
      `entityNames` the names looked up for the deepest level and
      `nameMaps` those looked up per level for the default view. */
  method Export(req: SalesRequest, rows: seq<SalesRow>, entityNames: map<int, string>,
                nameMaps: map<string, map<int, string>>)
    returns (r: Result<seq<Worksheet>>)
    ensures Normalise(req).Err? ==> r == Err(Normalise(req).failure)
    ensures Normalise(req).Ok? && rows == [] ==> r == Err(Http(404, NoDataMessage))
    ensures r.Ok? ==> Normalise(req).Ok? && rows != [] &&
                      |r.value| >= 1 && r.value[0].name == "summary" && DistinctNames(r.value)
    ensures Normalise(req).Ok? && rows != [] ==>
              var s := Normalise(req).value;
              var sorted := SortedPeriods(rows, s);
              (sorted.Err? ==> r == Err(ValueError)) &&
              (sorted.Ok? && s.defaultView ==> r == Ok([Worksheet("summary", DefaultViewSheet(rows, s, nameMaps))])) &&
              (sorted.Ok? && !s.defaultView ==>
                 var pretty := PrettyPeriods(sorted.value);
                 (pretty.Err? ==> r == Err(ValueError)) &&
                 (pretty.Ok? ==>
                    var more := LevelSheets(rows, s, sorted.value, pretty.value);
                    r.Ok? && |r.value| == 1 + |more| &&
                    r.value[0].rows == SummarySheet(rows, s, sorted.value, pretty.value) &&
                    forall i :: 0 <= i < |more| ==> r.value[i + 1].rows == more[i]))
  {
    var norm := Normalise(req);
    if norm.Err? {
      return Err(norm.failure);
    }
    var s := norm.value;
    if rows == [] {
      return Err(Http(404, NoDataMessage));
    }
    var g, fromDay, toDay := s.granularity, s.fromDay, s.toDay;
    var summary, company, periods, entities := FoldRows(rows, RowPeriodKey(g, fromDay, toDay), s.deep, s.sel);
    var sortedR := SortPeriods(PeriodList(rows, g, fromDay, toDay), g);
    if sortedR.Err? {
      return Err(ValueError);
    }
    var sorted := sortedR.value;
    if s.defaultView {
      var sheet := WriteDefaultExport(rows, s, nameMaps);
      return Ok([Worksheet("summary", sheet)]);
    }
    r := WriteWorkbook(rows, s, summary, entities, entityNames, nameMaps, sorted);
  }

  /** The default view's single sheet, for the entities the selection names;
      the entity column is entity_type + "_id", as written. */
  method WriteDefaultExport(rows: seq<SalesRow>, s: Settings, nameMaps: map<string, map<int, string>>)
    returns (sheet: seq<Row>)
    requires s.sel.companyIds != []
    ensures sheet == DefaultViewSheet(rows, s, nameMaps)
  {
    var level, ids, names := DetermineDefaultEntities(s.sel, nameMaps);
    assert level == DefaultLevel(s.sel) && ids == SelectedIds(s.sel, level);
    var header := seq(|ids|, k requires 0 <= k < |ids| => if ids[k] in names then names[ids[k]] else IntToString(ids[k]));
    assert header == DefaultNames(nameMaps, level, ids);
    sheet := WriteDefaultView(rows, DefaultColumnAsWritten(level), ids, header);
  }

  /** The summary sheet over the sorted periods, then the sheets of the
      deepest level. */
  method WriteWorkbook(rows: seq<SalesRow>, s: Settings, summary: PivotMap<string>,
                       entities: EntityPivot<EntityKey, string>, entityNames: map<int, string>,
                       nameMaps: map<string, map<int, string>>, sorted: seq<string>)
    returns (r: Result<seq<Worksheet>>)
    requires ValidOrdinal(s.fromDay) && ValidOrdinal(s.toDay)
    requires summary == PivotOf(Contributions(rows, RowPeriodKey(s.granularity, s.fromDay, s.toDay)))
    requires entities == FanOut(RoutedRows(rows, RowPeriodKey(s.granularity, s.fromDay, s.toDay), s.deep, s.sel))
    requires SortedPeriods(rows, s) == Ok(sorted)
    ensures r.Ok? ==> |r.value| >= 1 && r.value[0].name == "summary" && DistinctNames(r.value)
    ensures var pretty := PrettyPeriods(sorted);
            (pretty.Err? ==> r == Err(ValueError)) &&
            (pretty.Ok? ==>
               var more := LevelSheets(rows, s, sorted, pretty.value);
               r.Ok? && |r.value| == 1 + |more| &&
               r.value[0].rows == SummarySheet(rows, s, sorted, pretty.value) &&
               forall i :: 0 <= i < |more| ==> r.value[i + 1].rows == more[i])
  {
    var first := WriteSummary(rows, s, summary, sorted);
    if first.Err? {
      return Err(ValueError);
    }
    var namer := new SheetNamer();
    var more := MoreSheets(namer, rows, s, entities, entityNames, nameMaps, sorted);
    FreshAfterSummary(Worksheet("summary", first.value), more, namer.used);
    WorkbookRows(Worksheet("summary", first.value), more, LevelSheets(rows, s, sorted, PrettyPeriods(sorted).value));
    r := Ok([Worksheet("summary", first.value)] + more);
  }

  /** Putting the summary in front shifts the other sheets by one. */
  lemma WorkbookRows(first: Worksheet, more: seq<Worksheet>, want: seq<seq<Row>>)
    requires |more| == |want| && forall i :: 0 <= i < |want| ==> more[i].rows == want[i]
    ensures var ws := [first] + more;
            |ws| == 1 + |want| && ws[0] == first && forall i :: 0 <= i < |want| ==> ws[i + 1].rows == want[i]
  {
  }

  /** The summary sheet: one row per item over the sorted periods. */
  method WriteSummary(rows: seq<SalesRow>, s: Settings, summary: PivotMap<string>, sorted: seq<string>)
    returns (first: Result<seq<Row>>)
    requires ValidOrdinal(s.fromDay) && ValidOrdinal(s.toDay)
    requires summary == PivotOf(Contributions(rows, RowPeriodKey(s.granularity, s.fromDay, s.toDay)))
    requires SortedPeriods(rows, s) == Ok(sorted)
    ensures NoDup(sorted)
    ensures first.Ok? <==> PrettyPeriods(sorted).Ok?
    ensures first.Err? ==> first.failure == ValueError
    ensures first.Ok? ==> first.value == SummarySheet(rows, s, sorted, PrettyPeriods(sorted).value)
  {
    var g, fromDay, toDay := s.granularity, s.fromDay, s.toDay;
    PeriodListSpec(rows, g, fromDay, toDay);
    PermutationNoDup(PeriodList(rows, g, fromDay, toDay), sorted);
    PivotOfOrder(Contributions(rows, RowPeriodKey(g, fromDay, toDay)));
    first := WriteAggregatedSheet(Entries(summary), sorted);
  }

  /** The sheets after the summary, named through one `_sheet`. */
  method MoreSheets(namer: SheetNamer, rows: seq<SalesRow>, s: Settings, entities: EntityPivot<EntityKey, string>,
                    entityNames: map<int, string>, nameMaps: map<string, map<int, string>>, sorted: seq<string>)
    returns (more: seq<Worksheet>)
    requires ValidOrdinal(s.fromDay) && ValidOrdinal(s.toDay)
    requires entities == FanOut(RoutedRows(rows, RowPeriodKey(s.granularity, s.fromDay, s.toDay), s.deep, s.sel))
    requires NoDup(sorted) && PrettyPeriods(sorted).Ok?
    modifies namer
    ensures Fresh(more, old(namer.used), namer.used)
    ensures var want := LevelSheets(rows, s, sorted, PrettyPeriods(sorted).value);
            |more| == |want| && forall i :: 0 <= i < |want| ==> more[i].rows == want[i]
  {
    EntityPivotsComplete(rows, s.granularity, s.fromDay, s.toDay, s.deep, s.sel);
    if s.deep == Company {
      more := CompanySheets(namer, rows, s.granularity, s.sel.companyIds, entityNames, sorted);
    } else if s.deep == RouteSalesman {
      more := RouteSalesmanSheets(namer, entities, s.sel, nameMaps, sorted);
    } else if s.deep in {Region, Area, Warehouse, CustomerChannel, CustomerCategory, Customer} {
      more := EntitySheets(namer, entities, None, entityNames, sorted);
    } else {
      more := [];
    }
  }
}
