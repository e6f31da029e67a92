/** build_query_parts of the primary order report's helper: the order date
    window, then the company, region, area and warehouse filters on the
    transfer header `hth`, with the warehouse join for region or area. */
module PrimaryOrderCommon {
  import opened Sorting
  import opened Sql
  import opened QueryParts
  import opened FilterHelper

  const OrderDateRange := BetweenNamed("hth.order_date", "from_date", "to_date")
  const OrderWarehouseJoin := "JOIN tbl_warehouse w ON w.id = hth.warehouse_id"

  /** The id filters, in the order the builder tests them. */
  function Facets(f: Filters): seq<Facet>
  {
    []
    + [AnyFacet(f.companyIds, "hth.company_id", "company_ids")]
    + [AnyFacet(f.regionIds, "w.region_id", "region_ids")]
    + [AnyFacet(f.areaIds, "w.area_id", "area_ids")]
    + [AnyFacet(f.warehouseIds, "hth.warehouse_id", "warehouse_ids")]
  }

  /** The joins in the order the builder appends them, repeats kept; the
      company block's join is commented out. */
  function RawJoins(f: Filters): seq<string>
  {
    []
    + Opt(Given(f.regionIds), OrderWarehouseJoin)
    + Opt(Given(f.areaIds) && !Given(f.regionIds), OrderWarehouseJoin)
  }

  function Expected(f: Filters): Query
  {
    Reference([OrderDateRange], DateParams(f), Facets(f), [], RawJoins(f))
  }

  /** build_query_parts: (joins, where_fragments, params). */
  method BuildQueryParts(f: Filters) returns (joins: seq<string>, parts: seq<Pred>, params: map<string, Value>)
    ensures Query(joins, parts, params) == Expected(f)
  {
    joins, parts, params := [], [], map[];
    parts := parts + [OrderDateRange];
    params := params["from_date" := Text(f.fromDate)];
    params := params["to_date" := Text(f.toDate)];
    ghost var st, done := Stage(parts, params), [];
    assert st == Stage([OrderDateRange], DateParams(f));
    assert Stage(parts, params) == Run(st, done);
    parts, params, done := AddAnyFacet(parts, params, st, done, f.companyIds, "hth.company_id", "company_ids");

    var needWarehouseJoin := false;
    joins := AddJoin(joins, Given(f.regionIds), OrderWarehouseJoin);
    parts, params, done := AddAnyFacet(parts, params, st, done, f.regionIds, "w.region_id", "region_ids");
    needWarehouseJoin := Given(f.regionIds);

    joins := AddJoin(joins, Given(f.areaIds) && !needWarehouseJoin, OrderWarehouseJoin);
    needWarehouseJoin := needWarehouseJoin || Given(f.areaIds);
    parts, params, done := AddAnyFacet(parts, params, st, done, f.areaIds, "w.area_id", "area_ids");

    parts, params, done := AddAnyFacet(parts, params, st, done, f.warehouseIds, "hth.warehouse_id", "warehouse_ids");

    ReferenceNoTail([OrderDateRange], DateParams(f), Facets(f), RawJoins(f));
    joins := Dedup(joins);
  }

  /** Each id filter's fragment is in the WHERE list, and its key in the
      params bound to its ids, exactly when its id list is non-empty (the
      company filter among them). */
  lemma FacetsOwnFresh(f: Filters)
    ensures DistinctNames(Facets(f)) && OwnNames(Facets(f)) && FreshNames(DateParams(f), Facets(f))
  {
  }

  lemma FacetIffFires(f: Filters, i: nat)
    requires i < |Facets(f)|
    ensures var q, x := Expected(f), Facets(f)[i];
            && (x.pred in q.parts <==> x.on)
            && (x.name in q.params <==> x.on)
            && (x.on ==> q.params[x.name] == x.value)
  {
    FacetsOwnFresh(f);
    ReferenceFacet([OrderDateRange], DateParams(f), Facets(f), [], RawJoins(f), i);
  }

  /** The order date window comes first and binds the two dates; every
      named parameter is bound. */
  lemma QueryShape(f: Filters)
    ensures var q := Expected(f);
            && q.parts[0] == OrderDateRange
            && "from_date" in q.params && q.params["from_date"] == Text(f.fromDate)
            && "to_date" in q.params && q.params["to_date"] == Text(f.toDate)
            && AllBound(q.parts, q.params.Keys)
  {
    var fs := Facets(f);
    ReferenceBase([OrderDateRange], DateParams(f), fs, [], RawJoins(f), "from_date");
    ReferenceBase([OrderDateRange], DateParams(f), fs, [], RawJoins(f), "to_date");
    ReferenceBound([OrderDateRange], DateParams(f), fs, [], RawJoins(f));
  }

  /** The warehouse join is the only join, present once iff region or area
      ids are given. */
  lemma QueryJoins(f: Filters)
    ensures var q := Expected(f);
            && (q.joins == [OrderWarehouseJoin] <==> f.regionIds != [] || f.areaIds != [])
            && (q.joins == [] <==> f.regionIds == [] && f.areaIds == [])
  {
    var r := RawJoins(f);
    if f.regionIds != [] || f.areaIds != [] {
      assert r == [OrderWarehouseJoin];
      DedupSnoc([], OrderWarehouseJoin);
    } else {
      assert r == [];
    }
  }
}
