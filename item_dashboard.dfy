/** The deterministic part of the item dashboard route: the date check,
    the WHERE filters over the sales summary `ms`, the aggregation level,
    which rankings the response carries, and the period expressions for
    the purchase and return tables. */
module ItemDashboard {
  import opened Wrappers
  import opened Calendar
  import opened Sql
  import opened QueryParts
  import opened Granularity
  import ExportRequest

  const SummaryWindow := BetweenNamed("ms.invoice_date", "from_date", "to_date")
  const ItemIn := InNamed("ms.item_id", "item_ids")
  const PositiveAmount := Fixed("ms.total_amount > 0")

  /** strptime(..., "%Y-%m-%d") on both dates, with the exports' 400. */
  function ParseDates(f: Filters): (r: Result<(int, int)>)
    ensures r.Ok? <==> ParseIsoDate(f.fromDate).Some? && ParseIsoDate(f.toDate).Some?
    ensures r.Ok? ==> r.value == (ParseIsoDate(f.fromDate).value, ParseIsoDate(f.toDate).value)
    ensures r.Err? ==> r.failure == BadRequest(ExportRequest.DatesMessage)
  {
    ExportRequest.ParseDates(f.fromDate, f.toDate)
  }

  // ---- detect_level ----

  datatype Level = ItemLevel | ItemGroupLevel | RouteLevel | WarehouseLevel
                 | AreaLevel | RegionLevel | CompanyLevel | NoLevel

  /** The first non-empty list, from the finest filter to the coarsest. */
  function DetectLevel(f: Filters): (l: Level)
    ensures l == ItemLevel <==> f.itemIds != []
    ensures l == ItemGroupLevel <==> f.itemIds == [] && (f.itemCategoryIds != [] || f.brandIds != [])
    ensures l == RouteLevel <==> f.itemIds == [] && f.itemCategoryIds == [] && f.brandIds == [] && f.routeIds != []
    ensures l == WarehouseLevel <==>
              f.itemIds == [] && f.itemCategoryIds == [] && f.brandIds == [] && f.routeIds == [] && f.warehouseIds != []
    ensures l == AreaLevel <==>
              f.itemIds == [] && f.itemCategoryIds == [] && f.brandIds == [] && f.routeIds == []
              && f.warehouseIds == [] && f.areaIds != []
    ensures l == RegionLevel <==>
              f.itemIds == [] && f.itemCategoryIds == [] && f.brandIds == [] && f.routeIds == []
              && f.warehouseIds == [] && f.areaIds == [] && f.regionIds != []
    ensures l == CompanyLevel <==>
              f.itemIds == [] && f.itemCategoryIds == [] && f.brandIds == [] && f.routeIds == []
              && f.warehouseIds == [] && f.areaIds == [] && f.regionIds == [] && f.companyIds != []
    ensures l == NoLevel <==>
              f.itemIds == [] && f.itemCategoryIds == [] && f.brandIds == [] && f.routeIds == []
              && f.warehouseIds == [] && f.areaIds == [] && f.regionIds == [] && f.companyIds == []
  {
    if f.itemIds != [] then ItemLevel
    else if f.itemCategoryIds != [] || f.brandIds != [] then ItemGroupLevel
    else if f.routeIds != [] then RouteLevel
    else if f.warehouseIds != [] then WarehouseLevel
    else if f.areaIds != [] then AreaLevel
    else if f.regionIds != [] then RegionLevel
    else if f.companyIds != [] then CompanyLevel
    else NoLevel
  }

  /** A coarser level is chosen only when every finer list is empty: a
      given list caps the level at its own. */
  lemma LevelPrecedence(f: Filters)
    ensures f.routeIds != [] ==> DetectLevel(f) in {ItemLevel, ItemGroupLevel, RouteLevel}
    ensures f.warehouseIds != [] ==> DetectLevel(f) in {ItemLevel, ItemGroupLevel, RouteLevel, WarehouseLevel}
    ensures f.areaIds != [] ==> DetectLevel(f) !in {RegionLevel, CompanyLevel, NoLevel}
    ensures f.regionIds != [] ==> DetectLevel(f) !in {CompanyLevel, NoLevel}
    ensures f.companyIds != [] ==> DetectLevel(f) != NoLevel
  {
  }

  predicate IsItemLevel(l: Level) { l == ItemLevel || l == ItemGroupLevel }

  predicate IsCompanyLevel(l: Level)
  {
    l == CompanyLevel || l == RegionLevel || l == AreaLevel || l == WarehouseLevel || l == RouteLevel
  }

  // ---- rankings ----

  datatype Ranking = NoRanking | TopLeastFive | TopLeastTen

  /** The item_ranking entry of the response: the five-item rankings for
      item levels with more than five items, the ten-item rankings for the
      organisation levels. The two conditions never hold together. */
  function RankingFor(l: Level, itemCount: nat): (r: Ranking)
    ensures r == TopLeastFive <==> IsItemLevel(l) && itemCount > 5
    ensures r == TopLeastTen <==> IsCompanyLevel(l)
  {
    if IsCompanyLevel(l) then TopLeastTen
    else if IsItemLevel(l) && itemCount > 5 then TopLeastFive
    else NoRanking
  }

  /** For a request: five-item rankings need more than five item ids; the
      item-group level never has them, since it is chosen only when no item
      id is given; with no filter at all there is no ranking. */
  lemma RankingsOfRequest(f: Filters)
    ensures var r := RankingFor(DetectLevel(f), |f.itemIds|);
            && (r == TopLeastFive <==> |f.itemIds| > 5)
            && (DetectLevel(f) == ItemGroupLevel ==> r == NoRanking)
            && (DetectLevel(f) == NoLevel ==> r == NoRanking)
  {
  }

  // ---- filters ----

  function Head(f: Filters): seq<Pred>
  {
    [SummaryWindow] + Opt(Given(f.itemIds), ItemIn)
  }

  /** The initial params bind item_ids to the (possibly empty) tuple. */
  function Base(f: Filters, fromDay: int, toDay: int): map<string, Value>
  {
    map["from_date" := Day(fromDay), "to_date" := Day(toDay), "item_ids" := IdTuple(f.itemIds)]
  }

  /** `add(col, val, name)`: `col IN :name` bound to tuple(val). */
  function InFacet(ids: seq<int>, col: string, name: string): Facet
  {
    Facet(Given(ids), InNamed(col, name), name, IdTuple(ids))
  }

  /** The add(...) calls, in order. */
  function Facets(f: Filters): seq<Facet>
  {
    []
    + [InFacet(f.companyIds, "ms.company_id", "company_ids")]
    + [InFacet(f.regionIds, "ms.region_id", "region_ids")]
    + [InFacet(f.areaIds, "ms.area_id", "area_ids")]
    + [InFacet(f.warehouseIds, "ms.warehouse_id", "warehouse_ids")]
    + [InFacet(f.routeIds, "ms.route_id", "route_ids")]
    + [InFacet(f.itemCategoryIds, "ms.item_category_id", "item_category_ids")]
    + [InFacet(f.brandIds, "it.brand", "brand_ids")]
  }

  function Tail(f: Filters): seq<Pred>
  {
    Opt(WithoutFreeGood(f.displayQuantity), PositiveAmount)
  }

  function Expected(f: Filters, fromDay: int, toDay: int): Query
  {
    Reference(Head(f), Base(f, fromDay, toDay), Facets(f), Tail(f), [])
  }

  /** The date window, the item filter when items are given, and the
      initial params. */
  method StartFilters(f: Filters, fromDay: int, toDay: int) returns (parts: seq<Pred>, params: map<string, Value>)
    ensures parts == Head(f) && params == Base(f, fromDay, toDay)
  {
    params := map["from_date" := Day(fromDay), "to_date" := Day(toDay), "item_ids" := IdTuple(f.itemIds)];
    parts := [SummaryWindow];
    if f.itemIds != [] {
      parts := parts + [ItemIn];
      params := params["item_ids" := IdTuple(f.itemIds)];
    }
  }

  /** The seven add(...) calls. */
  method AddFilters(f: Filters, parts0: seq<Pred>, params0: map<string, Value>)
    returns (parts: seq<Pred>, params: map<string, Value>)
    ensures Stage(parts, params) == Run(Stage(parts0, params0), Facets(f))
  {
    parts, params := parts0, params0;
    ghost var st, done := Stage(parts, params), [];
    assert Stage(parts, params) == Run(st, done);
    parts, params, done := AddFacet(parts, params, st, done, Given(f.companyIds), InNamed("ms.company_id", "company_ids"), "company_ids", IdTuple(f.companyIds));
    parts, params, done := AddFacet(parts, params, st, done, Given(f.regionIds), InNamed("ms.region_id", "region_ids"), "region_ids", IdTuple(f.regionIds));
    parts, params, done := AddFacet(parts, params, st, done, Given(f.areaIds), InNamed("ms.area_id", "area_ids"), "area_ids", IdTuple(f.areaIds));
    parts, params, done := AddFacet(parts, params, st, done, Given(f.warehouseIds), InNamed("ms.warehouse_id", "warehouse_ids"), "warehouse_ids", IdTuple(f.warehouseIds));
    parts, params, done := AddFacet(parts, params, st, done, Given(f.routeIds), InNamed("ms.route_id", "route_ids"), "route_ids", IdTuple(f.routeIds));
    parts, params, done := AddFacet(parts, params, st, done, Given(f.itemCategoryIds), InNamed("ms.item_category_id", "item_category_ids"), "item_category_ids", IdTuple(f.itemCategoryIds));
    parts, params, done := AddFacet(parts, params, st, done, Given(f.brandIds), InNamed("it.brand", "brand_ids"), "brand_ids", IdTuple(f.brandIds));
    assert done == Facets(f);
  }

  /** The filters and params of the route, and where_sql. */
  method BuildFilters(f: Filters, fromDay: int, toDay: int) returns (whereSql: string, params: map<string, Value>)
    ensures whereSql == WhereText(Expected(f, fromDay, toDay).parts)
    ensures params == Expected(f, fromDay, toDay).params
  {
    var parts;
    parts, params := StartFilters(f, fromDay, toDay);
    parts, params := AddFilters(f, parts, params);
    ghost var mid := parts;
    if f.displayQuantity == "without_free_good" {
      parts := parts + [PositiveAmount];
    }
    assert parts == mid + Tail(f);
    whereSql := WhereText(parts);
  }

  lemma FacetsOwnFresh(f: Filters, fromDay: int, toDay: int)
    ensures DistinctNames(Facets(f)) && OwnNames(Facets(f)) && FreshNames(Base(f, fromDay, toDay), Facets(f))
  {
    assert "area_ids"[0] != "brand_ids"[0];
  }

  /** Each add(...) filter is in the list, and its key bound to the tuple
      of its ids, exactly when its list is non-empty. */
  lemma FacetIffFires(f: Filters, fromDay: int, toDay: int, i: nat)
    requires i < |Facets(f)|
    ensures var q, x := Expected(f, fromDay, toDay), Facets(f)[i];
            && (x.pred in q.parts <==> x.on)
            && (x.name in q.params <==> x.on)
            && (x.on ==> q.params[x.name] == x.value)
  {
    FacetsOwnFresh(f, fromDay, toDay);
    ReferenceFacet(Head(f), Base(f, fromDay, toDay), Facets(f), Tail(f), [], i);
  }

  /** The date window is first; the item filter is in the list exactly
      when item ids are given, and then second, ahead of the add(...)
      filters; item_ids is bound even when empty. */
  lemma QueryOpens(f: Filters, fromDay: int, toDay: int)
    ensures var q := Expected(f, fromDay, toDay);
            && q.parts[0] == SummaryWindow
            && (ItemIn in q.parts <==> f.itemIds != [])
            && (f.itemIds != [] ==> q.parts[1] == ItemIn)
            && "item_ids" in q.params && q.params["item_ids"] == IdTuple(f.itemIds)
            && "from_date" in q.params && q.params["from_date"] == Day(fromDay)
            && "to_date" in q.params && q.params["to_date"] == Day(toDay)
  {
    var fs, base := Facets(f), Base(f, fromDay, toDay);
    var q := Expected(f, fromDay, toDay);
    FacetsOwnFresh(f, fromDay, toDay);
    FacetPartsHas(fs, ItemIn);
    assert q.parts == Head(f) + FacetParts(fs) + Tail(f);
    ReferenceBase(Head(f), base, fs, Tail(f), [], "item_ids");
    ReferenceBase(Head(f), base, fs, Tail(f), [], "from_date");
    ReferenceBase(Head(f), base, fs, Tail(f), [], "to_date");
  }

  /** `ms.total_amount > 0` is there exactly for "without_free_good" in
      that exact case, and then last; every named parameter is bound. */
  lemma QueryCloses(f: Filters, fromDay: int, toDay: int)
    ensures var q := Expected(f, fromDay, toDay);
            && (PositiveAmount in q.parts <==> WithoutFreeGood(f.displayQuantity))
            && (WithoutFreeGood(f.displayQuantity) ==> q.parts[|q.parts| - 1] == PositiveAmount)
            && AllBound(q.parts, q.params.Keys)
  {
    var fs, base := Facets(f), Base(f, fromDay, toDay);
    FacetsOwnFresh(f, fromDay, toDay);
    FacetPartsHas(fs, PositiveAmount);
    ReferenceBound(Head(f), base, fs, Tail(f), []);
  }

  // ---- period expressions for purchase and return ----

  /** How a period is read off a date column. */
  datatype PeriodFormat = DateOf | ToChar(pattern: string)

  function PeriodPattern(g: Granularity): (p: PeriodFormat)
  {
    match g
    case Daily => DateOf
    case Weekly => ToChar("IYYY-IW")
    case Monthly => ToChar("YYYY-MM")
    case Yearly => ToChar("YYYY")
  }

  /** The purchase and return period expressions. */
  function PeriodExprs(g: Granularity): (r: (PeriodFormat, string, PeriodFormat, string))
    ensures r.0 == r.2 && r.1 == "hih.invoice_date" && r.3 == "rh.created_at"
  {
    (PeriodPattern(g), "hih.invoice_date", PeriodPattern(g), "rh.created_at")
  }

  /** Each granularity has its own format, and the dashboard chooser never
      reaches the 'YYYY' fallback. */
  lemma PeriodPatternDistinct(g1: Granularity, g2: Granularity, fromDay: int, toDay: int)
    ensures PeriodPattern(g1) == PeriodPattern(g2) <==> g1 == g2
    ensures PeriodPattern(ChooseForColumn(fromDay, toDay, SummaryInvoiceDate, MonDashYear).granularity) != ToChar("YYYY")
  {
    assert "IYYY-IW"[0] != "YYYY-MM"[0];
    assert "YYYY-MM" != "YYYY";
  }

  // ---- the route's deterministic core ----

  datatype Prepared = Prepared(
    whereSql: string, params: map<string, Value>, level: Level, ranking: Ranking,
    choice: Choice, periods: (PeriodFormat, string, PeriodFormat, string))

  /** dashboard_kpis up to the queries: the date check, the filters, the
      level with its "Select at least one item" check, the ranking flags,
      the granularity and the period expressions. The item check never
      fails: only a bad date is rejected. */
  method Prepare(f: Filters) returns (r: Result<Prepared>)
    ensures r.Err? <==> ParseDates(f).Err?
    ensures r.Err? ==> r.failure == BadRequest(ExportRequest.DatesMessage)
    ensures r.Ok? ==>
              var (a, b) := ParseDates(f).value;
              var c := ChooseForColumn(a, b, SummaryInvoiceDate, MonDashYear);
              r.value == Prepared(WhereText(Expected(f, a, b).parts), Expected(f, a, b).params,
                                  DetectLevel(f), RankingFor(DetectLevel(f), |f.itemIds|),
                                  c, PeriodExprs(c.granularity))
  {
    var dates := ParseDates(f);
    if dates.Err? {
      return Err(dates.failure);
    }
    var (a, b) := dates.value;
    var showItemRanking := |f.itemIds| > 5;
    var whereSql, params := BuildFilters(f, a, b);
    var level := DetectLevel(f);
    if level == ItemLevel && f.itemIds == [] {
      return Err(BadRequest("Select at least one item"));
    }
    var ranking := NoRanking;
    if IsItemLevel(level) && showItemRanking {
      ranking := TopLeastFive;
    }
    if IsCompanyLevel(level) {
      ranking := TopLeastTen;
    }
    var c := ChooseForColumn(a, b, SummaryInvoiceDate, MonDashYear);
    r := Ok(Prepared(whereSql, params, level, ranking, c, PeriodExprs(c.granularity)));
  }
}
