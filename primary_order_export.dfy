/** build_filters of the primary order export: the order date window, then
    company, region, area and warehouse filters through the joined region,
    area and warehouse tables, returned as one " AND "-joined WHERE text. */
module PrimaryOrderExport {
  import opened Sql
  import opened QueryParts
  import opened FilterHelper

  const OrderDateRange := BetweenNamed("hth.order_date", "from_date", "to_date")

  /** The id filters, in the order the builder tests them. */
  function Facets(f: Filters): seq<Facet>
  {
    []
    + [AnyFacet(f.companyIds, "hth.company_id", "company_ids")]
    + [AnyFacet(f.regionIds, "tr.id", "region_ids")]
    + [AnyFacet(f.areaIds, "ta.id", "area_ids")]
    + [AnyFacet(f.warehouseIds, "tw.id", "warehouse_ids")]
  }

  function Expected(f: Filters): Stage
  {
    Run(Stage([OrderDateRange], DateParams(f)), Facets(f))
  }

  /** build_filters: (WHERE text, params). */
  method BuildFilters(f: Filters) returns (whereSql: string, params: map<string, Value>)
    ensures whereSql == WhereText(Expected(f).parts) && params == Expected(f).params
  {
    var parts := [];
    params := map[];
    parts := parts + [OrderDateRange];
    params := params["from_date" := Text(f.fromDate)];
    params := params["to_date" := Text(f.toDate)];
    ghost var st, done := Stage(parts, params), [];
    assert st == Stage([OrderDateRange], DateParams(f));
    assert Stage(parts, params) == Run(st, done);
    parts, params, done := AddAnyFacet(parts, params, st, done, f.companyIds, "hth.company_id", "company_ids");
    parts, params, done := AddAnyFacet(parts, params, st, done, f.regionIds, "tr.id", "region_ids");
    parts, params, done := AddAnyFacet(parts, params, st, done, f.areaIds, "ta.id", "area_ids");
    parts, params, done := AddAnyFacet(parts, params, st, done, f.warehouseIds, "tw.id", "warehouse_ids");
    whereSql := WhereText(parts);
  }

  lemma FacetsOwnFresh(f: Filters)
    ensures DistinctNames(Facets(f)) && OwnNames(Facets(f)) && FreshNames(DateParams(f), Facets(f))
  {
  }

  /** Each filter's fragment is there, and its key bound to its ids,
      exactly when its id list is non-empty. */
  lemma FacetIffFires(f: Filters, i: nat)
    requires i < |Facets(f)|
    ensures var q, x := Expected(f), Facets(f)[i];
            && (x.pred in q.parts <==> x.on)
            && (x.name in q.params <==> x.on)
            && (x.on ==> q.params[x.name] == x.value)
  {
    FacetsOwnFresh(f);
    ReferenceFacet([OrderDateRange], DateParams(f), Facets(f), [], [], i);
    ReferenceNoTail([OrderDateRange], DateParams(f), Facets(f), []);
  }

  function ListedNames(f: Filters): set<string>
  {
    (if f.companyIds != [] then {"company_ids"} else {})
    + (if f.regionIds != [] then {"region_ids"} else {})
    + (if f.areaIds != [] then {"area_ids"} else {})
    + (if f.warehouseIds != [] then {"warehouse_ids"} else {})
  }

  lemma FiredNamesListed(f: Filters)
    ensures FiredNames(Facets(f)) == ListedNames(f)
  {
    var fs := Facets(f);
    assert fs[..3][..2][..1][..0] == [];
    assert fs[..3][..2][..1] == fs[..1] && fs[..3][..2] == fs[..2];
    assert FiredNames(fs[..1]) == (if f.companyIds != [] then {"company_ids"} else {});
    assert FiredNames(fs[..2]) == FiredNames(fs[..1]) + (if f.regionIds != [] then {"region_ids"} else {});
    assert FiredNames(fs[..3]) == FiredNames(fs[..2]) + (if f.areaIds != [] then {"area_ids"} else {});
  }

  /** The params are the two dates plus one key per non-empty id list. */
  lemma ParamKeys(f: Filters)
    ensures Expected(f).params.Keys == {"from_date", "to_date"} + ListedNames(f)
  {
    FacetParamsKeySet(DateParams(f), Facets(f));
    FiredNamesListed(f);
  }

  /** The WHERE text is never empty: it opens with the order date window,
      and is only that window when no id list is given. */
  lemma WhereOpensWithWindow(f: Filters)
    ensures var w, head := WhereText(Expected(f).parts), Render(OrderDateRange);
            && head <= w && |w| > 0
            && (w == head <==> f.companyIds == [] && f.regionIds == [] && f.areaIds == [] && f.warehouseIds == [])
  {
    var fs := Facets(f);
    WhereOpensWith(OrderDateRange, fs);
    if forall i :: 0 <= i < |fs| ==> !fs[i].on {
      assert !fs[0].on && !fs[1].on && !fs[2].on && !fs[3].on;
    }
  }
}
