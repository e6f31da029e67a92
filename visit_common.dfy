/** The visit report's builders. build_query_parts filters the visit plan
    `vp` by its start time; build_customer_filter_parts applies the same
    three id filters to the sales header `sh` by its requested date and
    returns the fragments joined with " AND ". */
module VisitCommon {
  import opened Sorting
  import opened Sql
  import opened QueryParts
  import opened FilterHelper

  /** The columns one builder filters on. */
  datatype VisitTable = VisitTable(dateCol: string, warehouseCol: string, routeCol: string, salesmanCol: string)

  const VisitPlan := VisitTable("vp.visit_start_time", "vp.warehouse_id", "vp.route_id", "vp.salesman_id")
  const SalesHeader := VisitTable("sh.requested_date", "sh.warehouse_id", "sh.route_id", "sh.salesman_id")

  function Window(t: VisitTable): Pred { BetweenNamed(t.dateCol, "from_date", "to_date") }

  /** The id filters, in the order the builders test them. */
  function Facets(t: VisitTable, f: Filters): seq<Facet>
  {
    []
    + [AnyFacet(f.warehouseIds, t.warehouseCol, "warehouse_ids")]
    + [AnyFacet(f.routeIds, t.routeCol, "route_ids")]
    + [AnyFacet(f.salesmanIds, t.salesmanCol, "salesman_ids")]
  }

  /** Both builders' fragments and params; neither appends a join. */
  function Expected(t: VisitTable, f: Filters): Query
  {
    Reference([Window(t)], DateParams(f), Facets(t, f), [], [])
  }

  method Build(t: VisitTable, f: Filters) returns (parts: seq<Pred>, params: map<string, Value>)
    ensures Stage(parts, params) == Stage(Expected(t, f).parts, Expected(t, f).params)
  {
    parts, params := [], map[];
    parts := parts + [Window(t)];
    params := params["from_date" := Text(f.fromDate)];
    params := params["to_date" := Text(f.toDate)];
    ghost var st, done := Stage(parts, params), [];
    assert st == Stage([Window(t)], DateParams(f));
    assert Stage(parts, params) == Run(st, done);
    parts, params, done := AddAnyFacet(parts, params, st, done, f.warehouseIds, t.warehouseCol, "warehouse_ids");
    parts, params, done := AddAnyFacet(parts, params, st, done, f.routeIds, t.routeCol, "route_ids");
    parts, params, done := AddAnyFacet(parts, params, st, done, f.salesmanIds, t.salesmanCol, "salesman_ids");
    ReferenceNoTail([Window(t)], DateParams(f), Facets(t, f), []);
  }

  /** build_query_parts: (joins, where_fragments, params), with no joins. */
  method BuildQueryParts(f: Filters) returns (joins: seq<string>, parts: seq<Pred>, params: map<string, Value>)
    ensures Query(joins, parts, params) == Expected(VisitPlan, f)
  {
    joins := [];
    parts, params := Build(VisitPlan, f);
    assert Dedup<string>([]) == [];
    joins := Dedup(joins);
  }

  /** build_customer_filter_parts: the WHERE text and the params. */
  method BuildCustomerFilterParts(f: Filters) returns (whereSql: string, params: map<string, Value>)
    ensures whereSql == WhereText(Expected(SalesHeader, f).parts)
    ensures params == Expected(SalesHeader, f).params
  {
    var parts;
    parts, params := Build(SalesHeader, f);
    whereSql := WhereText(parts);
  }

  lemma FacetsOwnFresh(t: VisitTable, f: Filters)
    ensures DistinctNames(Facets(t, f)) && OwnNames(Facets(t, f)) && FreshNames(DateParams(f), Facets(t, f))
  {
  }

  /** The warehouse, route and salesman fragments each appear, with their
      key bound to their ids, exactly when their list is non-empty. */
  lemma FacetIffFires(t: VisitTable, f: Filters, i: nat)
    requires i < |Facets(t, f)|
    ensures var q, x := Expected(t, f), Facets(t, f)[i];
            && (x.pred in q.parts <==> x.on)
            && (x.name in q.params <==> x.on)
            && (x.on ==> q.params[x.name] == x.value)
  {
    FacetsOwnFresh(t, f);
    ReferenceFacet([Window(t)], DateParams(f), Facets(t, f), [], [], i);
  }

  /** The date window comes first and binds both dates; the fragments keep
      the order warehouse, route, salesman; there are no joins; every named
      parameter is bound. */
  lemma QueryShape(t: VisitTable, f: Filters)
    ensures var q := Expected(t, f);
            && q.joins == []
            && q.parts == [Window(t)] + FacetParts(Facets(t, f))
            && "from_date" in q.params && q.params["from_date"] == Text(f.fromDate)
            && "to_date" in q.params && q.params["to_date"] == Text(f.toDate)
            && AllBound(q.parts, q.params.Keys)
  {
    var fs := Facets(t, f);
    FacetsOwnFresh(t, f);
    assert Dedup<string>([]) == [];
    ReferenceBase([Window(t)], DateParams(f), fs, [], [], "from_date");
    ReferenceBase([Window(t)], DateParams(f), fs, [], [], "to_date");
    ReferenceBound([Window(t)], DateParams(f), fs, [], []);
  }

  /** The customer WHERE text opens with the requested-date window and
      is exactly that window when no id list is given. */
  lemma CustomerWhereOpensWithWindow(f: Filters)
    ensures var w, head := WhereText(Expected(SalesHeader, f).parts), Render(Window(SalesHeader));
            && head <= w
            && (w == head <==> f.warehouseIds == [] && f.routeIds == [] && f.salesmanIds == [])
  {
    var fs := Facets(SalesHeader, f);
    ReferenceNoTail([Window(SalesHeader)], DateParams(f), fs, []);
    WhereOpensWith(Window(SalesHeader), fs);
    assert !fs[0].on && !fs[1].on && !fs[2].on ==> forall i :: 0 <= i < |fs| ==> !fs[i].on;
  }
}
