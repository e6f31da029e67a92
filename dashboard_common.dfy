/** The dashboard helper's three builders, for the sales, purchase and
    return ledgers. They are the same block of code over different tables:
    the header alias, the date column and the total column the free-good
    filter tests. */
module DashboardCommon {
  import opened Text
  import opened Sorting
  import opened Sql
  import opened QueryParts
  import opened FilterHelper

  /** The table-specific text of one builder: the header's date column,
      the free-good test on the detail total, the company and warehouse
      columns, and the warehouse join on the header alias. */
  datatype Ledger = Ledger(
    dateCol: string, freeGoodTest: string, companyCol: string,
    warehouseCol: string, warehouseJoin: string)

  const SalesLedger := Ledger("ih.invoice_date", "id.item_total <> 0", "ih.company_id",
                              "ih.warehouse_id", "JOIN tbl_warehouse w ON w.id = ih.warehouse_id")
  const PurchaseLedger := Ledger("hih.invoice_date", "hid.total <> 0", "hih.company_id",
                                 "hih.warehouse_id", "JOIN tbl_warehouse w ON w.id = hih.warehouse_id")
  const ReturnLedger := Ledger("hrh.created_at", "hrd.total <> 0", "hrh.company_id",
                               "hrh.warehouse_id", "JOIN tbl_warehouse w ON w.id = hrh.warehouse_id")

  function DateRangeOf(t: Ledger): Pred { BetweenNamed(t.dateCol, "from_date", "to_date") }

  function NoFreeGoodOf(t: Ledger): Pred { Fixed(t.freeGoodTest) }

  function HeadOf(t: Ledger, f: Filters): seq<Pred>
  {
    [DateRangeOf(t)] + Opt(WithoutFreeGoodAnyCase(f.displayQuantity), NoFreeGoodOf(t))
  }

  /** The id filters, in the order the builders test them. */
  function Facets(t: Ledger, f: Filters): seq<Facet>
  {
    []
    + [AnyFacet(f.companyIds, t.companyCol, "company_ids")]
    + [AnyFacet(f.regionIds, "w.region_id", "region_ids")]
    + [AnyFacet(f.areaIds, "w.area_id", "area_ids")]
    + [AnyFacet(f.warehouseIds, t.warehouseCol, "warehouse_ids")]
  }

  /** The joins in the order the builders append them, repeats kept. */
  function RawJoins(t: Ledger, f: Filters): seq<string>
  {
    []
    + Opt(Given(f.regionIds), t.warehouseJoin)
    + Opt(Given(f.areaIds) && !Given(f.regionIds), t.warehouseJoin)
  }

  function Expected(t: Ledger, f: Filters): Query
  {
    Reference(HeadOf(t, f), DateParams(f), Facets(t, f), [], RawJoins(t, f))
  }

  /** sales_build_query_parts, purchase_build_query_parts and
      return_build_query_parts, selected by the ledger. */
  method BuildQueryParts(t: Ledger, f: Filters)
    returns (joins: seq<string>, parts: seq<Pred>, params: map<string, Value>)
    ensures Query(joins, parts, params) == Expected(t, f)
  {
    joins, parts, params := [], [], map[];
    parts := parts + [DateRangeOf(t)];
    params := params["from_date" := Text(f.fromDate)];
    params := params["to_date" := Text(f.toDate)];
    if f.displayQuantity != "" && Lower(f.displayQuantity) == "without_free_good" {
      parts := parts + [NoFreeGoodOf(t)];
    }
    ghost var st, done := Stage(parts, params), [];
    assert st == Stage(HeadOf(t, f), DateParams(f));
    assert Stage(parts, params) == Run(st, done);
    parts, params, done := AddAnyFacet(parts, params, st, done, f.companyIds, t.companyCol, "company_ids");

    var needWhJoin := false;
    joins := AddJoin(joins, Given(f.regionIds), t.warehouseJoin);
    parts, params, done := AddAnyFacet(parts, params, st, done, f.regionIds, "w.region_id", "region_ids");
    needWhJoin := Given(f.regionIds);

    joins := AddJoin(joins, Given(f.areaIds) && !needWhJoin, t.warehouseJoin);
    needWhJoin := needWhJoin || Given(f.areaIds);
    parts, params, done := AddAnyFacet(parts, params, st, done, f.areaIds, "w.area_id", "area_ids");

    parts, params, done := AddAnyFacet(parts, params, st, done, f.warehouseIds, t.warehouseCol, "warehouse_ids");

    ReferenceNoTail(HeadOf(t, f), DateParams(f), Facets(t, f), RawJoins(t, f));
    joins := Dedup(joins);
  }

  /** Each id filter's fragment is in the WHERE list, and its key in the
      params bound to its ids, exactly when its id list is non-empty. */
  lemma FacetsOwnFresh(t: Ledger, f: Filters)
    ensures DistinctNames(Facets(t, f)) && OwnNames(Facets(t, f)) && FreshNames(DateParams(f), Facets(t, f))
  {
  }

  lemma FacetIffFires(t: Ledger, f: Filters, i: nat)
    requires i < |Facets(t, f)|
    ensures var q, x := Expected(t, f), Facets(t, f)[i];
            && (x.pred in q.parts <==> x.on)
            && (x.name in q.params <==> x.on)
            && (x.on ==> q.params[x.name] == x.value)
  {
    FacetsOwnFresh(t, f);
    ReferenceFacet(HeadOf(t, f), DateParams(f), Facets(t, f), [], RawJoins(t, f), i);
  }

  /** The ledger's date range comes first and binds the two dates; the
      free-good predicate on the ledger's own total column is there exactly
      for without_free_good in any case; every named parameter is bound. */
  lemma QueryShape(t: Ledger, f: Filters)
    ensures var q := Expected(t, f);
            && q.parts[0] == DateRangeOf(t)
            && "from_date" in q.params && q.params["from_date"] == Text(f.fromDate)
            && "to_date" in q.params && q.params["to_date"] == Text(f.toDate)
            && (NoFreeGoodOf(t) in q.parts <==> WithoutFreeGoodAnyCase(f.displayQuantity))
            && AllBound(q.parts, q.params.Keys)
  {
    var fs := Facets(t, f);
    ReferenceBase(HeadOf(t, f), DateParams(f), fs, [], RawJoins(t, f), "from_date");
    ReferenceBase(HeadOf(t, f), DateParams(f), fs, [], RawJoins(t, f), "to_date");
    ReferenceBound(HeadOf(t, f), DateParams(f), fs, [], RawJoins(t, f));
    FacetPartsHas(fs, NoFreeGoodOf(t));
  }

  /** The ledger's warehouse join is the only join, present once iff region
      or area ids are given. */
  lemma QueryJoins(t: Ledger, f: Filters)
    ensures var q := Expected(t, f);
            && (q.joins == [t.warehouseJoin] <==> f.regionIds != [] || f.areaIds != [])
            && (q.joins == [] <==> f.regionIds == [] && f.areaIds == [])
  {
    var r := RawJoins(t, f);
    if f.regionIds != [] || f.areaIds != [] {
      assert r == [t.warehouseJoin];
      DedupSnoc([], t.warehouseJoin);
    } else {
      assert r == [];
    }
  }

  /** The three builders bind the same params and emit as many fragments
      and joins for the same request; they differ only in table text. */
  lemma LedgersBindAlike(t1: Ledger, t2: Ledger, f: Filters)
    ensures Expected(t1, f).params == Expected(t2, f).params
    ensures |Expected(t1, f).parts| == |Expected(t2, f).parts|
    ensures |Expected(t1, f).joins| == |Expected(t2, f).joins|
  {
    SameBindingsAgree(DateParams(f), Facets(t1, f), Facets(t2, f));
    QueryJoins(t1, f);
    QueryJoins(t2, f);
  }
}
