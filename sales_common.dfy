/** build_query_parts of the sales report's common helper. It opens like
    the filter helper's builder, filters items through alias `it`, and
    appends only the warehouse join: its customer fragments use alias `c`
    without joining the customer table. */
module SalesCommon {
  import opened Sorting
  import opened Sql
  import opened QueryParts
  import opened FilterHelper

  /** The id filters, in the order the builder tests them. */
  function Facets(f: Filters): seq<Facet>
  {
    []
    + [AnyFacet(f.companyIds, "ih.company_id", "company_ids")]
    + [AnyFacet(f.regionIds, "w.region_id", "region_ids")]
    + [AnyFacet(f.areaIds, "w.area_id", "area_ids")]
    + [AnyFacet(f.warehouseIds, "ih.warehouse_id", "warehouse_ids")]
    + [AnyFacet(f.routeIds, "ih.route_id", "route_ids")]
    + [AnyFacet(f.salesmanIds, "ih.salesman_id", "salesman_ids")]
    + [AnyFacet(f.itemCategoryIds, "it.category_id", "item_category_ids")]
    + [AnyFacet(f.itemIds, "id.item_id", "item_ids")]
    + [AnyFacet(f.channelIds, "c.outlet_channel_id", "customer_channel_ids")]
    + [AnyFacet(f.customerCategoryIds, "c.category_id", "customer_category_ids")]
    + [AnyFacet(f.customerIds, "ih.customer_id", "customer_ids")]
  }

  /** The joins in the order the builder appends them, repeats kept. */
  function RawJoins(f: Filters): seq<string>
  {
    []
    + Opt(Given(f.regionIds), WarehouseJoin)
    + Opt(Given(f.areaIds) && !Given(f.regionIds), WarehouseJoin)
  }

  function Expected(f: Filters): Query
  {
    Reference(Head(f), DateParams(f), Facets(f), [], RawJoins(f))
  }

  /** build_query_parts: (joins, where_fragments, params). */
  method BuildQueryParts(f: Filters) returns (joins: seq<string>, parts: seq<Pred>, params: map<string, Value>)
    ensures Query(joins, parts, params) == Expected(f)
  {
    joins := [];
    parts, params := StartQuery(f);
    ghost var st, done := Stage(parts, params), [];
    assert Stage(parts, params) == Run(st, done);
    parts, params, done := AddAnyFacet(parts, params, st, done, f.companyIds, "ih.company_id", "company_ids");

    var needWhJoin := false;
    joins := AddJoin(joins, Given(f.regionIds), WarehouseJoin);
    parts, params, done := AddAnyFacet(parts, params, st, done, f.regionIds, "w.region_id", "region_ids");
    needWhJoin := Given(f.regionIds);

    joins := AddJoin(joins, Given(f.areaIds) && !needWhJoin, WarehouseJoin);
    needWhJoin := needWhJoin || Given(f.areaIds);
    parts, params, done := AddAnyFacet(parts, params, st, done, f.areaIds, "w.area_id", "area_ids");

    parts, params, done := AddAnyFacet(parts, params, st, done, f.warehouseIds, "ih.warehouse_id", "warehouse_ids");
    parts, params, done := AddAnyFacet(parts, params, st, done, f.routeIds, "ih.route_id", "route_ids");
    parts, params, done := AddAnyFacet(parts, params, st, done, f.salesmanIds, "ih.salesman_id", "salesman_ids");
    parts, params, done := AddAnyFacet(parts, params, st, done, f.itemCategoryIds, "it.category_id", "item_category_ids");
    parts, params, done := AddAnyFacet(parts, params, st, done, f.itemIds, "id.item_id", "item_ids");
    parts, params, done := AddAnyFacet(parts, params, st, done, f.channelIds, "c.outlet_channel_id", "customer_channel_ids");
    parts, params, done := AddAnyFacet(parts, params, st, done, f.customerCategoryIds, "c.category_id", "customer_category_ids");
    parts, params, done := AddAnyFacet(parts, params, st, done, f.customerIds, "ih.customer_id", "customer_ids");

    ReferenceNoTail(Head(f), DateParams(f), Facets(f), RawJoins(f));
    joins := Dedup(joins);
  }

  lemma FacetsDistinct(f: Filters)
    ensures DistinctNames(Facets(f))
  {
    assert "area_ids"[0] != "item_ids"[0];
    assert "salesman_ids"[0] != "customer_ids"[0];
  }

  lemma FacetsOwnFresh(f: Filters)
    ensures OwnNames(Facets(f)) && FreshNames(DateParams(f), Facets(f))
  {
  }

  /** Each id filter's fragment is in the WHERE list, and its key in the
      params bound to its ids, exactly when its id list is non-empty. */
  lemma FacetIffFires(f: Filters, i: nat)
    requires i < |Facets(f)|
    ensures var q, x := Expected(f), Facets(f)[i];
            && (x.pred in q.parts <==> x.on)
            && (x.name in q.params <==> x.on)
            && (x.on ==> q.params[x.name] == x.value)
  {
    FacetsDistinct(f);
    FacetsOwnFresh(f);
    HeadBound(f);
    ReferenceFacet(Head(f), DateParams(f), Facets(f), [], RawJoins(f), i);
  }

  /** The date range comes first and binds the two dates; the free-good
      predicate is there exactly for without_free_good in any case; every
      named parameter is bound. */
  lemma QueryShape(f: Filters)
    ensures var q := Expected(f);
            && q.parts[0] == DateRange
            && "from_date" in q.params && q.params["from_date"] == Text(f.fromDate)
            && "to_date" in q.params && q.params["to_date"] == Text(f.toDate)
            && (NoFreeGood in q.parts <==> WithoutFreeGoodAnyCase(f.displayQuantity))
            && AllBound(q.parts, q.params.Keys)
  {
    var fs := Facets(f);
    var q := Expected(f);
    FacetsOwnFresh(f);
    assert "from_date" in q.params && q.params["from_date"] == Text(f.fromDate) by {
      ReferenceBase(Head(f), DateParams(f), fs, [], RawJoins(f), "from_date");
    }
    assert "to_date" in q.params && q.params["to_date"] == Text(f.toDate) by {
      ReferenceBase(Head(f), DateParams(f), fs, [], RawJoins(f), "to_date");
    }
    assert AllBound(q.parts, q.params.Keys) by {
      HeadBound(f);
      ReferenceBound(Head(f), DateParams(f), fs, [], RawJoins(f));
    }
    FacetPartsHas(fs, NoFreeGood);
  }

  /** The only join is the warehouse join, present once iff region or area
      ids are given; customer filters add none. */
  lemma QueryJoins(f: Filters)
    ensures var q := Expected(f);
            && (q.joins == [WarehouseJoin] <==> f.regionIds != [] || f.areaIds != [])
            && (q.joins == [] <==> f.regionIds == [] && f.areaIds == [])
  {
    var r := RawJoins(f);
    if f.regionIds != [] || f.areaIds != [] {
      assert r == [WarehouseJoin];
      DedupSnoc([], WarehouseJoin);
    } else {
      assert r == [];
    }
  }
}
