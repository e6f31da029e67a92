/** build_query_parts of the item report's common helper. Its item
    category block calls `apppend` on the fragment list, so as written any
    request with item category ids raises AttributeError; the corrected
    builder appends the category fragment like the other blocks. */
module ItemCommon {
  import opened Wrappers
  import opened Text
  import opened Sorting
  import opened Sql
  import opened QueryParts
  import opened FilterHelper

  const PositiveTotal := Fixed("id.item_total > 0")
  const CategoryCol := "it.category_id"

  function Head(f: Filters): seq<Pred>
  {
    [DateRange] + Opt(WithoutFreeGoodAnyCase(f.displayQuantity), PositiveTotal)
  }

  /** The id filters, in the order the builder tests them. */
  function Facets(f: Filters): seq<Facet>
  {
    []
    + [AnyFacet(f.companyIds, "ih.company_id", "company_ids")]
    + [AnyFacet(f.regionIds, "w.region_id", "region_ids")]
    + [AnyFacet(f.areaIds, "w.area_id", "area_ids")]
    + [AnyFacet(f.warehouseIds, "ih.warehouse_id", "warehouse_ids")]
    + [AnyFacet(f.routeIds, "ih.route_id", "route_ids")]
    + [AnyFacet(f.itemCategoryIds, CategoryCol, "item_category_ids")]
    + [AnyFacet(f.itemIds, "id.item_id", "item_ids")]
  }

  /** The joins in the order the builder appends them, repeats kept; the
      company block's join is commented out. */
  function RawJoins(f: Filters): seq<string>
  {
    []
    + Opt(Given(f.regionIds), WarehouseJoin)
    + Opt(Given(f.areaIds) && !Given(f.regionIds), WarehouseJoin)
  }

  /** The result of the corrected builder. */
  function Expected(f: Filters): Query
  {
    Reference(Head(f), DateParams(f), Facets(f), [], RawJoins(f))
  }

  method Start(f: Filters) returns (parts: seq<Pred>, params: map<string, Value>)
    ensures Stage(parts, params) == Stage(Head(f), DateParams(f))
  {
    parts, params := [], map[];
    parts := parts + [DateRange];
    params := params["from_date" := Text(f.fromDate)];
    params := params["to_date" := Text(f.toDate)];
    if f.displayQuantity != "" && Lower(f.displayQuantity) == "without_free_good" {
      parts := parts + [PositiveTotal];
    }
  }

  /** build_query_parts as written: the call to the missing `apppend`
      raises AttributeError exactly when item category ids are given, and
      otherwise the result is the corrected builder's. */
  method BuildQueryPartsAsWritten(f: Filters) returns (r: Result<Query>)
    ensures r.Err? <==> f.itemCategoryIds != []
    ensures r.Err? ==> r.failure == AttributeError
    ensures r.Ok? ==> r.value == Expected(f)
  {
    var joins := [];
    var parts, params := Start(f);
    ghost var st, done := Stage(parts, params), [];
    assert Stage(parts, params) == Run(st, done);
    parts, params, done := AddAnyFacet(parts, params, st, done, f.companyIds, "ih.company_id", "company_ids");

    var needWarehouseJoin := false;
    joins := AddJoin(joins, Given(f.regionIds), WarehouseJoin);
    parts, params, done := AddAnyFacet(parts, params, st, done, f.regionIds, "w.region_id", "region_ids");
    needWarehouseJoin := Given(f.regionIds);

    joins := AddJoin(joins, Given(f.areaIds) && !needWarehouseJoin, WarehouseJoin);
    needWarehouseJoin := needWarehouseJoin || Given(f.areaIds);
    parts, params, done := AddAnyFacet(parts, params, st, done, f.areaIds, "w.area_id", "area_ids");

    parts, params, done := AddAnyFacet(parts, params, st, done, f.warehouseIds, "ih.warehouse_id", "warehouse_ids");
    parts, params, done := AddAnyFacet(parts, params, st, done, f.routeIds, "ih.route_id", "route_ids");

    if f.itemCategoryIds != [] {
      return Err(AttributeError);
    }
    // with no category ids the block does not fire
    parts, params, done := AddAnyFacet(parts, params, st, done, f.itemCategoryIds, CategoryCol, "item_category_ids");

    parts, params, done := AddAnyFacet(parts, params, st, done, f.itemIds, "id.item_id", "item_ids");

    ReferenceNoTail(Head(f), DateParams(f), Facets(f), RawJoins(f));
    joins := Dedup(joins);
    r := Ok(Query(joins, parts, params));
  }

  /** build_query_parts with the category fragment appended. */
  method BuildQueryParts(f: Filters) returns (joins: seq<string>, parts: seq<Pred>, params: map<string, Value>)
    ensures Query(joins, parts, params) == Expected(f)
  {
    joins := [];
    parts, params := Start(f);
    ghost var st, done := Stage(parts, params), [];
    assert Stage(parts, params) == Run(st, done);
    parts, params, done := AddAnyFacet(parts, params, st, done, f.companyIds, "ih.company_id", "company_ids");

    var needWarehouseJoin := false;
    joins := AddJoin(joins, Given(f.regionIds), WarehouseJoin);
    parts, params, done := AddAnyFacet(parts, params, st, done, f.regionIds, "w.region_id", "region_ids");
    needWarehouseJoin := Given(f.regionIds);

    joins := AddJoin(joins, Given(f.areaIds) && !needWarehouseJoin, WarehouseJoin);
    needWarehouseJoin := needWarehouseJoin || Given(f.areaIds);
    parts, params, done := AddAnyFacet(parts, params, st, done, f.areaIds, "w.area_id", "area_ids");

    parts, params, done := AddAnyFacet(parts, params, st, done, f.warehouseIds, "ih.warehouse_id", "warehouse_ids");
    parts, params, done := AddAnyFacet(parts, params, st, done, f.routeIds, "ih.route_id", "route_ids");
    parts, params, done := AddAnyFacet(parts, params, st, done, f.itemCategoryIds, CategoryCol, "item_category_ids");
    parts, params, done := AddAnyFacet(parts, params, st, done, f.itemIds, "id.item_id", "item_ids");

    ReferenceNoTail(Head(f), DateParams(f), Facets(f), RawJoins(f));
    joins := Dedup(joins);
  }

  lemma FacetsOwnFresh(f: Filters)
    ensures DistinctNames(Facets(f)) && OwnNames(Facets(f)) && FreshNames(DateParams(f), Facets(f))
  {
    assert "area_ids"[0] != "item_ids"[0];
  }

  /** Each id filter's fragment is in the WHERE list, and its key in the
      params bound to its ids, exactly when its id list is non-empty; for
      the corrected builder this includes the item category filter. */
  lemma FacetIffFires(f: Filters, i: nat)
    requires i < |Facets(f)|
    ensures var q, x := Expected(f), Facets(f)[i];
            && (x.pred in q.parts <==> x.on)
            && (x.name in q.params <==> x.on)
            && (x.on ==> q.params[x.name] == x.value)
  {
    FacetsOwnFresh(f);
    ReferenceFacet(Head(f), DateParams(f), Facets(f), [], RawJoins(f), i);
  }

  /** The date range comes first and binds the two dates; the free-good
      predicate is there exactly for without_free_good in any case; every
      named parameter is bound. */
  lemma QueryShape(f: Filters)
    ensures var q := Expected(f);
            && q.parts[0] == DateRange
            && "from_date" in q.params && q.params["from_date"] == Text(f.fromDate)
            && "to_date" in q.params && q.params["to_date"] == Text(f.toDate)
            && (PositiveTotal in q.parts <==> WithoutFreeGoodAnyCase(f.displayQuantity))
            && AllBound(q.parts, q.params.Keys)
  {
    var fs := Facets(f);
    FacetsOwnFresh(f);
    ReferenceBase(Head(f), DateParams(f), fs, [], RawJoins(f), "from_date");
    ReferenceBase(Head(f), DateParams(f), fs, [], RawJoins(f), "to_date");
    ReferenceBound(Head(f), DateParams(f), fs, [], RawJoins(f));
    FacetPartsHas(fs, PositiveTotal);
  }

  /** The warehouse join is the only join, present once iff region or area
      ids are given. */
  lemma QueryJoins(f: Filters)
    ensures var q := Expected(f);
            && (q.joins == [WarehouseJoin] <==> f.regionIds != [] || f.areaIds != [])
            && (q.joins == [] <==> f.regionIds == [] && f.areaIds == [])
  {
    var r := RawJoins(f);
    if f.regionIds != [] || f.areaIds != [] {
      assert r == [WarehouseJoin];
      DedupSnoc([], WarehouseJoin);
    } else {
      assert r == [];
    }
  }
}
