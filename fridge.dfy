/** build_query_parts of the fridge tracking helper. It returns only
    (where_fragments, params): the region and area fragments use the
    warehouse alias `w`, but no join is appended (its need_warehouse_join
    flag is set and never read). */
module Fridge {
  import opened Wrappers
  import opened Text
  import opened Sql
  import opened QueryParts
  import opened Requests
  import opened FilterHelper

  /** The fields of FridgeTrackingRequest the builder reads; an absent id
      list is []. fridge_available defaults to "default". */
  datatype FridgeRequest = FridgeRequest(
    fromDate: string,
    toDate: string,
    fridgeAvailable: string,
    companyIds: seq<int>,
    regionIds: seq<int>,
    areaIds: seq<int>,
    warehouseIds: seq<int>)

  const CreatedRange := BetweenNamed("ft.created_at", "from_date", "to_date")
  const HaveFridge := EqNamed("ft.have_fridge", "have_fridge")

  predicate YesOrNo(s: string) { s == "yes" || s == "no" }

  function Dates(r: FridgeRequest): map<string, Value>
  {
    map["from_date" := Text(r.fromDate), "to_date" := Text(r.toDate)]
  }

  /** The optional blocks, in the order the builder tests them; company
      ids are bound as a tuple of their decimal strings. */
  function Facets(r: FridgeRequest): seq<Facet>
  {
    []
    + [Facet(YesOrNo(r.fridgeAvailable), HaveFridge, "have_fridge", Text(Lower(r.fridgeAvailable)))]
    + [Facet(Given(r.companyIds), InNamed("w.company", "company_ids"), "company_ids", TextTuple(IdTexts(r.companyIds)))]
    + [AnyFacet(r.regionIds, "w.region_id", "region_ids")]
    + [AnyFacet(r.areaIds, "w.area_id", "area_ids")]
    + [AnyFacet(r.warehouseIds, "ac.warehouse", "warehouse_ids")]
  }

  function Expected(r: FridgeRequest): Stage
  {
    Run(Stage([CreatedRange], Dates(r)), Facets(r))
  }

  /** build_query_parts: (where_fragments, params). */
  method BuildQueryParts(r: FridgeRequest) returns (parts: seq<Pred>, params: map<string, Value>)
    ensures Stage(parts, params) == Expected(r)
  {
    parts, params := [], map[];
    parts := parts + [CreatedRange];
    params := params["from_date" := Text(r.fromDate)];
    params := params["to_date" := Text(r.toDate)];
    ghost var st, done := Stage(parts, params), [];
    assert Stage(parts, params) == Run(st, done);
    parts, params, done := AddFacet(parts, params, st, done, YesOrNo(r.fridgeAvailable),
                                    HaveFridge, "have_fridge", Text(Lower(r.fridgeAvailable)));
    parts, params, done := AddFacet(parts, params, st, done, Given(r.companyIds),
                                    InNamed("w.company", "company_ids"), "company_ids", TextTuple(IdTexts(r.companyIds)));
    parts, params, done := AddAnyFacet(parts, params, st, done, r.regionIds, "w.region_id", "region_ids");
    parts, params, done := AddAnyFacet(parts, params, st, done, r.areaIds, "w.area_id", "area_ids");
    parts, params, done := AddAnyFacet(parts, params, st, done, r.warehouseIds, "ac.warehouse", "warehouse_ids");
  }

  lemma FacetsOwnFresh(r: FridgeRequest)
    ensures DistinctNames(Facets(r)) && OwnNames(Facets(r)) && FreshNames(Dates(r), Facets(r))
  {
  }

  /** Each block's fragment is in the list, and its key bound to its value,
      exactly when the block fires. */
  lemma FacetIffFires(r: FridgeRequest, i: nat)
    requires i < |Facets(r)|
    ensures var q, x := Expected(r), Facets(r)[i];
            && (x.pred in q.parts <==> x.on)
            && (x.name in q.params <==> x.on)
            && (x.on ==> q.params[x.name] == x.value)
  {
    FacetsOwnFresh(r);
    ReferenceFacet([CreatedRange], Dates(r), Facets(r), [], [], i);
    ReferenceNoTail([CreatedRange], Dates(r), Facets(r), []);
  }

  /** The have_fridge filter is there only for exactly "yes" or "no" (the
      default "default", any other text and other capitalisations add
      nothing), and its value is that text unchanged. */
  lemma HaveFridgeOnlyYesNo(r: FridgeRequest)
    ensures var q := Expected(r);
            && (HaveFridge in q.parts <==> r.fridgeAvailable in {"yes", "no"})
            && ("have_fridge" in q.params <==> r.fridgeAvailable in {"yes", "no"})
            && (YesOrNo(r.fridgeAvailable) ==> q.params["have_fridge"] == Text(r.fridgeAvailable))
  {
    FacetIffFires(r, 0);
    assert Lower("yes") == "yes" && Lower("no") == "no";
  }

  /** Company ids are bound as the tuple of their decimal strings. */
  lemma CompanyAsStrings(r: FridgeRequest)
    requires r.companyIds != []
    ensures var q := Expected(r);
            && "company_ids" in q.params
            && q.params["company_ids"].TextTuple?
            && |q.params["company_ids"].items| == |r.companyIds|
            && forall k :: 0 <= k < |r.companyIds| ==>
                 ParseInt(q.params["company_ids"].items[k]) == Some(r.companyIds[k])
  {
    FacetIffFires(r, 1);
    forall k | 0 <= k < |r.companyIds| {
      ParseIntOfIntToString(r.companyIds[k]);
    }
  }

  /** The created_at window comes first and binds both dates, and every
      named parameter is bound. */
  lemma QueryShape(r: FridgeRequest)
    ensures var q := Expected(r);
            && q.parts[0] == CreatedRange
            && "from_date" in q.params && q.params["from_date"] == Text(r.fromDate)
            && "to_date" in q.params && q.params["to_date"] == Text(r.toDate)
            && AllBound(q.parts, q.params.Keys)
  {
    var fs := Facets(r);
    FacetsOwnFresh(r);
    ReferenceNoTail([CreatedRange], Dates(r), fs, []);
    ReferenceBase([CreatedRange], Dates(r), fs, [], [], "from_date");
    ReferenceBase([CreatedRange], Dates(r), fs, [], [], "to_date");
    ReferenceBound([CreatedRange], Dates(r), fs, [], []);
  }
}
