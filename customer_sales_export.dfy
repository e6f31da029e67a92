/** build_where of the customer sales export: the invoice date window,
    the company, region, area, warehouse and route filters on the summary
    view's own columns, and a trailing `total_amount > 0` when
    display_quantity is exactly "without_free_good"; returned as one
    " AND "-joined WHERE text and the params. */
module CustomerSalesExport {
  import opened Sql
  import opened QueryParts
  import opened FilterHelper

  const InvoiceWindow := BetweenNamed("invoice_date", "from_date", "to_date")
  const PositiveAmount := Fixed("total_amount > 0")

  /** The id filters, in the order the builder tests them. */
  function Facets(f: Filters): seq<Facet>
  {
    []
    + [AnyFacet(f.companyIds, "company_id", "company_ids")]
    + [AnyFacet(f.regionIds, "region_id", "region_ids")]
    + [AnyFacet(f.areaIds, "area_id", "area_ids")]
    + [AnyFacet(f.warehouseIds, "warehouse_id", "warehouse_ids")]
    + [AnyFacet(f.routeIds, "route_id", "route_ids")]
  }

  /** The case-sensitive free-good test comes after the id filters. */
  function Tail(f: Filters): seq<Pred>
  {
    Opt(WithoutFreeGood(f.displayQuantity), PositiveAmount)
  }

  function Expected(f: Filters): Query
  {
    Reference([InvoiceWindow], DateParams(f), Facets(f), Tail(f), [])
  }

  /** build_where: (WHERE text, params). */
  method BuildWhere(f: Filters) returns (whereSql: string, params: map<string, Value>)
    ensures whereSql == WhereText(Expected(f).parts) && params == Expected(f).params
  {
    var parts := [InvoiceWindow];
    params := map["from_date" := Text(f.fromDate), "to_date" := Text(f.toDate)];
    ghost var st, done := Stage(parts, params), [];
    assert st == Stage([InvoiceWindow], DateParams(f));
    assert Stage(parts, params) == Run(st, done);
    parts, params, done := AddAnyFacet(parts, params, st, done, f.companyIds, "company_id", "company_ids");
    parts, params, done := AddAnyFacet(parts, params, st, done, f.regionIds, "region_id", "region_ids");
    parts, params, done := AddAnyFacet(parts, params, st, done, f.areaIds, "area_id", "area_ids");
    parts, params, done := AddAnyFacet(parts, params, st, done, f.warehouseIds, "warehouse_id", "warehouse_ids");
    parts, params, done := AddAnyFacet(parts, params, st, done, f.routeIds, "route_id", "route_ids");
    assert done == Facets(f);
    if f.displayQuantity == "without_free_good" {
      parts := parts + [PositiveAmount];
    }
    assert parts == Run(st, done).parts + Tail(f);
    whereSql := WhereText(parts);
  }

  lemma FacetsOwnFresh(f: Filters)
    ensures DistinctNames(Facets(f)) && OwnNames(Facets(f)) && FreshNames(DateParams(f), Facets(f))
  {
  }

  /** Each filter's fragment is there, and its key bound to its ids,
      exactly when its id list is non-empty. */
  lemma FacetIffFires(f: Filters, i: nat)
    requires i < |Facets(f)|
    ensures var q, x := Expected(f), Facets(f)[i];
            && (x.pred in q.parts <==> x.on)
            && (x.name in q.params <==> x.on)
            && (x.on ==> q.params[x.name] == x.value)
  {
    FacetsOwnFresh(f);
    ReferenceFacet([InvoiceWindow], DateParams(f), Facets(f), Tail(f), [], i);
  }

  /** The date window comes first; `total_amount > 0` is there exactly when
      display_quantity is "without_free_good" in that exact case, and then
      it is last; every named parameter is bound. */
  lemma QueryShape(f: Filters)
    ensures var q := Expected(f);
            && q.parts[0] == InvoiceWindow
            && (PositiveAmount in q.parts <==> f.displayQuantity == "without_free_good")
            && (f.displayQuantity == "without_free_good" ==> q.parts[|q.parts| - 1] == PositiveAmount)
            && AllBound(q.parts, q.params.Keys)
  {
    var fs := Facets(f);
    FacetsOwnFresh(f);
    FacetPartsHas(fs, PositiveAmount);
    ReferenceBound([InvoiceWindow], DateParams(f), fs, Tail(f), []);
  }

  function ListedNames(f: Filters): set<string>
  {
    (if f.companyIds != [] then {"company_ids"} else {})
    + (if f.regionIds != [] then {"region_ids"} else {})
    + (if f.areaIds != [] then {"area_ids"} else {})
    + (if f.warehouseIds != [] then {"warehouse_ids"} else {})
    + (if f.routeIds != [] then {"route_ids"} else {})
  }

  lemma FiredNamesListed(f: Filters)
    ensures FiredNames(Facets(f)) == ListedNames(f)
  {
    var fs := Facets(f);
    assert fs[..4][..3][..2][..1][..0] == [];
    assert fs[..4][..3][..2][..1] == fs[..1] && fs[..4][..3][..2] == fs[..2] && fs[..4][..3] == fs[..3];
    assert FiredNames(fs[..1]) == (if f.companyIds != [] then {"company_ids"} else {});
    assert FiredNames(fs[..2]) == FiredNames(fs[..1]) + (if f.regionIds != [] then {"region_ids"} else {});
    assert FiredNames(fs[..3]) == FiredNames(fs[..2]) + (if f.areaIds != [] then {"area_ids"} else {});
    assert FiredNames(fs[..4]) == FiredNames(fs[..3]) + (if f.warehouseIds != [] then {"warehouse_ids"} else {});
  }

  /** The params are the two dates plus one key per non-empty id list. */
  lemma ParamKeys(f: Filters)
    ensures Expected(f).params.Keys == {"from_date", "to_date"} + ListedNames(f)
  {
    FacetParamsKeySet(DateParams(f), Facets(f));
    FiredNamesListed(f);
  }
}
