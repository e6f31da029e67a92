/** build_query_parts of the customer report's common helper. Unlike the
    other builders it appends the warehouse join for a company filter too;
    the final dedup leaves that join once. */
module CustomerCommon {
  import opened Text
  import opened Sorting
  import opened Sql
  import opened QueryParts
  import opened FilterHelper

  const PositiveTotal := Fixed("id.item_total > 0")

  function Head(f: Filters): seq<Pred>
  {
    [DateRange] + Opt(WithoutFreeGoodAnyCase(f.displayQuantity), PositiveTotal)
  }

  /** The id filters, in the order the builder tests them. */
  function Facets(f: Filters): seq<Facet>
  {
    []
    + [AnyFacet(f.companyIds, "ih.company_id", "company_ids")]
    + [AnyFacet(f.regionIds, "w.region_id", "region_ids")]
    + [AnyFacet(f.areaIds, "w.area_id", "area_ids")]
    + [AnyFacet(f.warehouseIds, "ih.warehouse_id", "warehouse_ids")]
    + [AnyFacet(f.routeIds, "ih.route_id", "route_ids")]
  }

  /** The joins in the order the builder appends them, repeats kept. */
  function RawJoins(f: Filters): seq<string>
  {
    []
    + Opt(Given(f.companyIds), WarehouseJoin)
    + Opt(Given(f.regionIds), WarehouseJoin)
    + Opt(Given(f.areaIds) && !Given(f.regionIds), WarehouseJoin)
  }

  function Expected(f: Filters): Query
  {
    Reference(Head(f), DateParams(f), Facets(f), [], RawJoins(f))
  }

  /** build_query_parts: (joins, where_fragments, params). */
  method BuildQueryParts(f: Filters) returns (joins: seq<string>, parts: seq<Pred>, params: map<string, Value>)
    ensures Query(joins, parts, params) == Expected(f)
  {
    joins, parts, params := [], [], map[];
    parts := parts + [DateRange];
    params := params["from_date" := Text(f.fromDate)];
    params := params["to_date" := Text(f.toDate)];
    if f.displayQuantity != "" && Lower(f.displayQuantity) == "without_free_good" {
      parts := parts + [PositiveTotal];
    }
    ghost var st, done := Stage(parts, params), [];
    assert st == Stage(Head(f), DateParams(f));
    assert Stage(parts, params) == Run(st, done);
    joins := AddJoin(joins, Given(f.companyIds), WarehouseJoin);
    parts, params, done := AddAnyFacet(parts, params, st, done, f.companyIds, "ih.company_id", "company_ids");

    var needWarehouseJoin := false;
    joins := AddJoin(joins, Given(f.regionIds), WarehouseJoin);
    parts, params, done := AddAnyFacet(parts, params, st, done, f.regionIds, "w.region_id", "region_ids");
    needWarehouseJoin := Given(f.regionIds);

    joins := AddJoin(joins, Given(f.areaIds) && !needWarehouseJoin, WarehouseJoin);
    needWarehouseJoin := needWarehouseJoin || Given(f.areaIds);
    parts, params, done := AddAnyFacet(parts, params, st, done, f.areaIds, "w.area_id", "area_ids");

    parts, params, done := AddAnyFacet(parts, params, st, done, f.warehouseIds, "ih.warehouse_id", "warehouse_ids");
    parts, params, done := AddAnyFacet(parts, params, st, done, f.routeIds, "ih.route_id", "route_ids");

    ReferenceNoTail(Head(f), DateParams(f), Facets(f), RawJoins(f));
    joins := Dedup(joins);
  }

  lemma FacetsOwnFresh(f: Filters)
    ensures DistinctNames(Facets(f)) && OwnNames(Facets(f)) && FreshNames(DateParams(f), Facets(f))
  {
  }

  /** Each id filter's fragment is in the WHERE list, and its key in the
      params bound to its ids, exactly when its id list is non-empty (the
      route filter among them). */
  lemma FacetIffFires(f: Filters, i: nat)
    requires i < |Facets(f)|
    ensures var q, x := Expected(f), Facets(f)[i];
            && (x.pred in q.parts <==> x.on)
            && (x.name in q.params <==> x.on)
            && (x.on ==> q.params[x.name] == x.value)
  {
    FacetsOwnFresh(f);
    ReferenceFacet(Head(f), DateParams(f), Facets(f), [], RawJoins(f), i);
  }

  /** The date range comes first and binds the two dates; `id.item_total >
      0` is there exactly for without_free_good in any case; every named
      parameter is bound. */
  lemma QueryShape(f: Filters)
    ensures var q := Expected(f);
            && q.parts[0] == DateRange
            && "from_date" in q.params && q.params["from_date"] == Text(f.fromDate)
            && "to_date" in q.params && q.params["to_date"] == Text(f.toDate)
            && (PositiveTotal in q.parts <==> WithoutFreeGoodAnyCase(f.displayQuantity))
            && AllBound(q.parts, q.params.Keys)
  {
    var fs := Facets(f);
    FacetsOwnFresh(f);
    ReferenceBase(Head(f), DateParams(f), fs, [], RawJoins(f), "from_date");
    ReferenceBase(Head(f), DateParams(f), fs, [], RawJoins(f), "to_date");
    ReferenceBound(Head(f), DateParams(f), fs, [], RawJoins(f));
    FacetPartsHas(fs, PositiveTotal);
  }

  /** The warehouse join is the only join. It is there once iff company,
      region or area ids are given, even when both the company and the
      region block append it. */
  lemma QueryJoins(f: Filters)
    ensures var q := Expected(f);
            && (q.joins == [WarehouseJoin] <==> f.companyIds != [] || f.regionIds != [] || f.areaIds != [])
            && (q.joins == [] <==> f.companyIds == [] && f.regionIds == [] && f.areaIds == [])
  {
    var r := RawJoins(f);
    var hierarchy := f.regionIds != [] || f.areaIds != [];
    DedupSnoc([], WarehouseJoin);
    if f.companyIds != [] && hierarchy {
      assert r == [WarehouseJoin] + [WarehouseJoin];
      DedupSnoc([WarehouseJoin], WarehouseJoin);
    } else if f.companyIds != [] || hierarchy {
      assert r == [] + [WarehouseJoin];
    } else {
      assert r == [];
    }
  }
}
