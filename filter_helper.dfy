/** The sales report's filter helper: the WHERE fragments, joins and bind
    parameters for a FilterSelection, and the resolution of a user's
    access scope (the users column) against the ids the UI asks for. */
module FilterHelper {
  import opened Wrappers
  import opened Text
  import opened Sorting
  import opened Sql
  import opened QueryParts
  import Requests

  // ---- build_query_parts ----

  const WarehouseJoin := "JOIN tbl_warehouse w ON w.id = ih.warehouse_id"
  const ItemJoin := "JOIN items itm ON itm.id = id.item_id"
  const CustomerJoin := "JOIN agent_customers c ON c.id = ih.customer_id"
  const DateRange := BetweenNamed("ih.invoice_date", "from_date", "to_date")
  const NoFreeGood := Fixed("id.item_total <> 0")

  function Head(f: Filters): seq<Pred>
  {
    [DateRange] + Opt(WithoutFreeGoodAnyCase(f.displayQuantity), NoFreeGood)
  }

  function DateParams(f: Filters): map<string, Value>
  {
    map["from_date" := Text(f.fromDate), "to_date" := Text(f.toDate)]
  }

  predicate AnyCustomer(f: Filters)
  {
    f.channelIds != [] || f.customerCategoryIds != [] || f.customerIds != []
  }

  /** The id filters, in the order the builder tests them. */
  function Facets(f: Filters): seq<Facet>
  {
    []
    + [AnyFacet(f.companyIds, "ih.company_id", "company_ids")]
    + [AnyFacet(f.regionIds, "w.region_id", "region_ids")]
    + [AnyFacet(f.areaIds, "w.area_id", "area_ids")]
    + [AnyFacet(f.warehouseIds, "ih.warehouse_id", "warehouse_ids")]
    + [AnyFacet(f.routeIds, "ih.route_id", "route_ids")]
    + [AnyFacet(f.salesmanIds, "ih.salesman_id", "salesman_ids")]
    + [AnyFacet(f.itemCategoryIds, "itm.category_id", "item_category_ids")]
    + [AnyFacet(f.itemIds, "id.item_id", "item_ids")]
    + [AnyFacet(f.channelIds, "c.outlet_channel_id", "customer_channel_ids")]
    + [AnyFacet(f.customerCategoryIds, "c.category_id", "customer_category_ids")]
    + [AnyFacet(f.customerIds, "ih.customer_id", "customer_ids")]
  }

  /** The joins in the order build_query_parts appends them, repeats
      kept: the area filter appends the warehouse join only when the
      region filter has not. */
  function RawJoins(f: Filters): seq<string>
  {
    []
    + Opt(Given(f.regionIds), WarehouseJoin)
    + Opt(Given(f.areaIds) && !Given(f.regionIds), WarehouseJoin)
    + Opt(Given(f.itemCategoryIds), ItemJoin)
    + Opt(AnyCustomer(f), CustomerJoin)
  }

  function Expected(f: Filters): Query
  {
    Reference(Head(f), DateParams(f), Facets(f), [], RawJoins(f))
  }

  /** need_warehouse_join only avoids a repeat that the final
      deduplication would drop anyway. */
  lemma WarehouseGuardRedundant(f: Filters)
    ensures Dedup(RawJoins(f))
         == Dedup([] + Opt(Given(f.regionIds), WarehouseJoin) + Opt(Given(f.areaIds), WarehouseJoin)
                     + Opt(Given(f.itemCategoryIds), ItemJoin) + Opt(AnyCustomer(f), CustomerJoin))
  {
    var r, a := Given(f.regionIds), Given(f.areaIds);
    GuardedJoin([], r, a, WarehouseJoin);
    DedupExtend([] + Opt(r, WarehouseJoin) + Opt(a && !r, WarehouseJoin),
                [] + Opt(r, WarehouseJoin) + Opt(a, WarehouseJoin), Given(f.itemCategoryIds), ItemJoin);
    DedupExtend([] + Opt(r, WarehouseJoin) + Opt(a && !r, WarehouseJoin) + Opt(Given(f.itemCategoryIds), ItemJoin),
                [] + Opt(r, WarehouseJoin) + Opt(a, WarehouseJoin) + Opt(Given(f.itemCategoryIds), ItemJoin),
                AnyCustomer(f), CustomerJoin);
  }

  /** The opening of build_query_parts: the date range, its two params and
      the optional free-good exclusion. */
  method StartQuery(f: Filters) returns (parts: seq<Pred>, params: map<string, Value>)
    ensures Stage(parts, params) == Stage(Head(f), DateParams(f))
  {
    parts, params := [], map[];
    parts := parts + [DateRange];
    params := params["from_date" := Text(f.fromDate)];
    params := params["to_date" := Text(f.toDate)];
    if f.displayQuantity != "" && Lower(f.displayQuantity) == "without_free_good" {
      parts := parts + [NoFreeGood];
    }
  }

  /** build_query_parts: (joins, where_fragments, params). */
  method BuildQueryParts(f: Filters) returns (joins: seq<string>, parts: seq<Pred>, params: map<string, Value>)
    ensures Query(joins, parts, params) == Expected(f)
  {
    joins := [];
    parts, params := StartQuery(f);
    ghost var st, done := Stage(parts, params), [];
    assert Stage(parts, params) == Run(st, done);
    joins, parts, params, done := OrganisationFilters(f, joins, parts, params, st, done);
    joins, parts, params, done := ItemAndCustomerFilters(f, joins, parts, params, st, done);
    SplitAt(Facets(f), 6);
    assert done == Facets(f);
    assert joins == RawJoins(f);
    ReferenceNoTail(Head(f), DateParams(f), Facets(f), RawJoins(f));
    joins := Dedup(joins);
  }

  lemma SplitAt<T>(s: seq<T>, k: nat)
    requires k <= |s|
    ensures [] + s[..k] + s[k..] == s
  {
  }

  /** The company, region, area, warehouse, route and salesman blocks,
      with the warehouse join and its need_warehouse_join flag. */
  method OrganisationFilters(f: Filters, joins: seq<string>, parts: seq<Pred>, params: map<string, Value>,
                             ghost st: Stage, ghost done: seq<Facet>)
    returns (joins': seq<string>, parts': seq<Pred>, params': map<string, Value>, ghost done': seq<Facet>)
    requires Stage(parts, params) == Run(st, done)
    ensures done' == done + Facets(f)[..6]
    ensures Stage(parts', params') == Run(st, done')
    ensures joins' == joins + Opt(Given(f.regionIds), WarehouseJoin) + Opt(Given(f.areaIds) && !Given(f.regionIds), WarehouseJoin)
  {
    joins', parts', params', done' := joins, parts, params, done;
    parts', params', done' := AddAnyFacet(parts', params', st, done', f.companyIds, "ih.company_id", "company_ids");

    var needWarehouseJoin := false;
    joins' := AddJoin(joins', Given(f.regionIds), WarehouseJoin);
    parts', params', done' := AddAnyFacet(parts', params', st, done', f.regionIds, "w.region_id", "region_ids");
    needWarehouseJoin := Given(f.regionIds);

    joins' := AddJoin(joins', Given(f.areaIds) && !needWarehouseJoin, WarehouseJoin);
    needWarehouseJoin := needWarehouseJoin || Given(f.areaIds);
    parts', params', done' := AddAnyFacet(parts', params', st, done', f.areaIds, "w.area_id", "area_ids");

    parts', params', done' := AddAnyFacet(parts', params', st, done', f.warehouseIds, "ih.warehouse_id", "warehouse_ids");
    parts', params', done' := AddAnyFacet(parts', params', st, done', f.routeIds, "ih.route_id", "route_ids");
    parts', params', done' := AddAnyFacet(parts', params', st, done', f.salesmanIds, "ih.salesman_id", "salesman_ids");
    assert done' == done + Facets(f)[..6];
  }

  /** The item-category, item and customer blocks, with their joins. */
  method ItemAndCustomerFilters(f: Filters, joins: seq<string>, parts: seq<Pred>, params: map<string, Value>,
                                ghost st: Stage, ghost done: seq<Facet>)
    returns (joins': seq<string>, parts': seq<Pred>, params': map<string, Value>, ghost done': seq<Facet>)
    requires Stage(parts, params) == Run(st, done)
    ensures done' == done + Facets(f)[6..]
    ensures Stage(parts', params') == Run(st, done')
    ensures joins' == joins + Opt(Given(f.itemCategoryIds), ItemJoin) + Opt(AnyCustomer(f), CustomerJoin)
  {
    joins', parts', params', done' := joins, parts, params, done;
    joins' := AddJoin(joins', Given(f.itemCategoryIds), ItemJoin);
    parts', params', done' := AddAnyFacet(parts', params', st, done', f.itemCategoryIds, "itm.category_id", "item_category_ids");
    parts', params', done' := AddAnyFacet(parts', params', st, done', f.itemIds, "id.item_id", "item_ids");

    joins' := AddJoin(joins', AnyCustomer(f), CustomerJoin);
    parts', params', done' := AddAnyFacet(parts', params', st, done', f.channelIds, "c.outlet_channel_id", "customer_channel_ids");
    parts', params', done' := AddAnyFacet(parts', params', st, done', f.customerCategoryIds, "c.category_id", "customer_category_ids");
    parts', params', done' := AddAnyFacet(parts', params', st, done', f.customerIds, "ih.customer_id", "customer_ids");
    assert done' == done + Facets(f)[6..];
  }

  lemma FacetsDistinct(f: Filters)
    ensures DistinctNames(Facets(f))
  {
    assert "area_ids"[0] != "item_ids"[0];
    assert "salesman_ids"[0] != "customer_ids"[0];
  }

  lemma FacetsOwnFresh(f: Filters)
    ensures OwnNames(Facets(f)) && FreshNames(DateParams(f), Facets(f))
  {
  }

  lemma HeadBound(f: Filters)
    ensures AllBound(Head(f), DateParams(f).Keys)
  {
  }

  /** Each id filter's fragment is in the WHERE list, and its key in the
      params bound to its ids, exactly when the filter fires, that is when
      its id list is non-empty. */
  lemma FacetIffFires(f: Filters, i: nat)
    requires i < |Facets(f)|
    ensures var q, x := Expected(f), Facets(f)[i];
            && (x.pred in q.parts <==> x.on)
            && (x.name in q.params <==> x.on)
            && (x.on ==> q.params[x.name] == x.value)
  {
    FacetsDistinct(f);
    FacetsOwnFresh(f);
    HeadBound(f);
    ReferenceFacet(Head(f), DateParams(f), Facets(f), [], RawJoins(f), i);
  }

  /** The date range comes first and binds the two dates; the free-good
      predicate is there exactly for without_free_good in any case; every
      named parameter is bound. */
  lemma QueryShape(f: Filters)
    ensures var q := Expected(f);
            && q.parts[0] == DateRange
            && "from_date" in q.params && q.params["from_date"] == Text(f.fromDate)
            && "to_date" in q.params && q.params["to_date"] == Text(f.toDate)
            && (NoFreeGood in q.parts <==> WithoutFreeGoodAnyCase(f.displayQuantity))
            && AllBound(q.parts, q.params.Keys)
  {
    var fs := Facets(f);
    FacetsOwnFresh(f);
    HeadBound(f);
    ReferenceBase(Head(f), DateParams(f), fs, [], RawJoins(f), "from_date");
    ReferenceBase(Head(f), DateParams(f), fs, [], RawJoins(f), "to_date");
    ReferenceBound(Head(f), DateParams(f), fs, [], RawJoins(f));
    FacetPartsHas(fs, NoFreeGood);
  }

  /** The joins come once each: the warehouse join iff region or area ids are
      given, the item join iff item category ids are, and the customer join
      iff any customer filter is. */
  lemma QueryJoins(f: Filters)
    ensures var q := Expected(f);
            && NoDup(q.joins)
            && (WarehouseJoin in q.joins <==> f.regionIds != [] || f.areaIds != [])
            && (ItemJoin in q.joins <==> f.itemCategoryIds != [])
            && (CustomerJoin in q.joins <==> AnyCustomer(f))
  {
    ExpectedJoins(f);
    RawJoinsMembers(f);
  }

  lemma ExpectedJoins(f: Filters)
    ensures Expected(f).joins == Dedup(RawJoins(f))
  {
  }

  lemma RawJoinsMembers(f: Filters)
    ensures var r := Dedup(RawJoins(f));
            && NoDup(r)
            && (WarehouseJoin in r <==> f.regionIds != [] || f.areaIds != [])
            && (ItemJoin in r <==> f.itemCategoryIds != [])
            && (CustomerJoin in r <==> AnyCustomer(f))
  {
    assert WarehouseJoin != ItemJoin && WarehouseJoin != CustomerJoin && ItemJoin != CustomerJoin by {
      assert WarehouseJoin[5] == 't' && ItemJoin[5] == 'i' && CustomerJoin[5] == 'a';
    }
    DedupOptMembers(Given(f.regionIds), Given(f.areaIds) && !Given(f.regionIds), Given(f.itemCategoryIds),
                    AnyCustomer(f), WarehouseJoin, ItemJoin, CustomerJoin);
  }

  /** Membership after deduplicating the four optional joins. */
  lemma DedupOptMembers(a: bool, b: bool, c: bool, d: bool, w: string, i: string, k: string)
    requires w != i && w != k && i != k
    ensures var r := Dedup([] + Opt(a, w) + Opt(b, w) + Opt(c, i) + Opt(d, k));
            && NoDup(r) && (w in r <==> a || b) && (i in r <==> c) && (k in r <==> d)
  {
    var s := [] + Opt(a, w) + Opt(b, w) + Opt(c, i) + Opt(d, k);
    assert w in s <==> a || b;
    assert i in s <==> c;
    assert k in s <==> d;
    DedupMembers(s);
  }

  // ---- normalize_user_field ----

  /** The access modes a scope can have. */
  datatype Mode = NoAccess | AllAccess | ListAccess

  /** A scalar as it may appear inside the users value: an integer, a
      finite float, a boolean, a text, or anything else (None, a list, an
      object). */
  datatype Scalar = IntItem(i: int) | FloatItem(r: real) | BoolItem(b: bool) | TextItem(s: string) | OtherItem

  /** The users column as read from the database: NULL, a text, an array,
      an integer, a float, or any other value. */
  datatype Raw = Null | RawText(text: string) | RawArray(items: seq<Scalar>) | RawInt(n: int) | RawFloat(x: real)
               | RawOther

  /** int() of a float: the integer part, rounding toward zero. */
  function TruncReal(r: real): (i: int)
    ensures 0.0 <= r ==> i as real <= r < i as real + 1.0
    ensures r < 0.0 ==> i as real - 1.0 < r <= i as real
  {
    if r >= 0.0 then r.Floor else -((-r).Floor)
  }

  /** int(v): integers as they are, floats cut toward zero, True and False
      as 1 and 0, text through int(); anything else raises. */
  function IntOf(v: Scalar): Option<int>
  {
    match v
    case IntItem(i) => Some(i)
    case FloatItem(r) => Some(TruncReal(r))
    case BoolItem(b) => Some(if b then 1 else 0)
    case TextItem(s) => ParseInt(s)
    case OtherItem => None
  }

  /** The int-convertible items, converted, in order. */
  function Convertible(vs: seq<Scalar>): (r: seq<int>)
    ensures |r| <= |vs|
  {
    if |vs| == 0 then []
    else
      var n := |vs| - 1;
      Convertible(vs[..n]) + (match IntOf(vs[n]) case Some(i) => [i] case None => [])
  }

  /** The loop that appends int(v) for each v that converts. */
  method KeepInts(vs: seq<Scalar>) returns (vals: seq<int>)
    ensures vals == Convertible(vs)
  {
    vals := [];
    var k := 0;
    while k < |vs|
      invariant 0 <= k <= |vs|
      invariant vals == Convertible(vs[..k])
    {
      assert vs[..k + 1][..k] == vs[..k];
      match IntOf(vs[k]) {
        case Some(i) => vals := vals + [i];
        case None =>
      }
      k := k + 1;
    }
    assert vs[..k] == vs;
  }

  /** A converted value comes from some item, and every converting item
      contributes. */
  lemma {:induction false} ConvertibleHas(vs: seq<Scalar>, x: int)
    ensures x in Convertible(vs) <==> exists k :: 0 <= k < |vs| && IntOf(vs[k]) == Some(x)
  {
    if |vs| > 0 {
      var n := |vs| - 1;
      ConvertibleHas(vs[..n], x);
      var last := match IntOf(vs[n]) case Some(i) => [i] case None => [];
      assert Convertible(vs) == Convertible(vs[..n]) + last;
      assert x in last <==> IntOf(vs[n]) == Some(x);
      if exists k :: 0 <= k < |vs| && IntOf(vs[k]) == Some(x) {
        var k :| 0 <= k < |vs| && IntOf(vs[k]) == Some(x);
        if k < n {
          assert vs[..n][k] == vs[k];
        }
      }
    }
  }

  /** An array of integers converts to itself. */
  lemma {:induction false} ConvertibleOfInts(ids: seq<int>)
    ensures Convertible(seq(|ids|, k requires 0 <= k < |ids| => IntItem(ids[k]))) == ids
  {
    if |ids| > 0 {
      var n := |ids| - 1;
      var vs := seq(|ids|, k requires 0 <= k < |ids| => IntItem(ids[k]));
      assert vs[..n] == seq(n, k requires 0 <= k < n => IntItem(ids[..n][k]));
      ConvertibleOfInts(ids[..n]);
      assert ids == ids[..n] + [ids[n]];
    }
  }

  /** str.strip("[]"): drops '[' and ']' from both ends. */
  function StripBrackets(s: string): (r: string)
    ensures |r| <= |s|
  {
    if |s| > 0 && (s[0] == '[' || s[0] == ']') then StripBrackets(s[1..])
    else if |s| > 0 && (s[|s| - 1] == '[' || s[|s| - 1] == ']') then StripBrackets(s[..|s| - 1])
    else s
  }

  predicate Bracketed(s: string) { |s| > 0 && s[0] == '[' && s[|s| - 1] == ']' }

  /** ("list", vals) for a non-empty list, ("all", []) for an empty one. */
  function ListOrAll(vals: seq<int>): (Mode, seq<int>)
  {
    if |vals| == 0 then (AllAccess, []) else (ListAccess, vals)
  }

  /** normalize_user_field. `decoded` is what the JSON decoder makes of the
      stripped text: the array's items, or None when it does not parse. */
  method NormalizeUserField(raw: Raw, decoded: Option<seq<Scalar>>) returns (mode: Mode, ids: seq<int>)
    ensures mode == ListAccess <==> ids != []
    ensures raw.Null? ==> mode == NoAccess
    ensures raw.RawArray? ==> (mode, ids) == ListOrAll(Convertible(raw.items))
    ensures raw.RawInt? ==> (mode, ids) == (ListAccess, [raw.n])
    ensures raw.RawFloat? ==> (mode, ids) == (ListAccess, [TruncReal(raw.x)])
    ensures raw.RawOther? ==> mode == NoAccess
    ensures raw.RawText? && Bracketed(Strip(raw.text)) && decoded.Some? ==>
              (mode, ids) == ListOrAll(Convertible(decoded.value))
    ensures raw.RawText? && Bracketed(Strip(raw.text)) && decoded.None? ==>
              match Requests.ParseEach(Requests.Pieces(StripBrackets(Strip(raw.text))))
              case Some(vals) => (mode, ids) == ListOrAll(vals)
              case None => mode == NoAccess
    ensures raw.RawText? && !Bracketed(Strip(raw.text)) ==>
              match ParseInt(Strip(raw.text))
              case Some(v) => (mode, ids) == (ListAccess, [v])
              case None => mode == NoAccess
  {
    match raw {
      case Null =>
        return NoAccess, [];
      case RawText(text) =>
        var rawStrip := Strip(text);
        if Bracketed(rawStrip) {
          match decoded {
            case Some(parsed) =>
              var parsedClean := KeepInts(parsed);
              if |parsedClean| == 0 {
                return AllAccess, [];
              }
              return ListAccess, parsedClean;
            case None =>
              var pieces := Requests.Pieces(StripBrackets(rawStrip));
              match Requests.ParseEach(pieces) {
                case Some(vals) =>
                  if |vals| == 0 {
                    return AllAccess, [];
                  }
                  return ListAccess, vals;
                case None =>
                  return NoAccess, [];
              }
          }
        }
        match ParseInt(rawStrip) {
          case Some(v) => return ListAccess, [v];
          case None => return NoAccess, [];
        }
      case RawArray(items) =>
        var vals := KeepInts(items);
        if |vals| == 0 {
          return AllAccess, [];
        }
        return ListAccess, vals;
      case RawInt(n) =>
        return ListAccess, [n];
      case RawFloat(x) =>
        return ListAccess, [TruncReal(x)];
      case RawOther =>
        return NoAccess, [];
    }
  }

  /** A user whose array holds the ids `ids` (non-empty) gets exactly
      those; a user whose text is one integer gets exactly that one. */
  lemma NormalizeRoundTrips(ids: seq<int>, i: int)
    requires ids != []
    ensures ListOrAll(Convertible(seq(|ids|, k requires 0 <= k < |ids| => IntItem(ids[k])))) == (ListAccess, ids)
    ensures !Bracketed(Strip(IntToString(i))) && ParseInt(Strip(IntToString(i))) == Some(i)
  {
    ConvertibleOfInts(ids);
    var t := IntToString(i);
    StripWithoutSpace(t);
    ParseIntOfIntToString(i);
    assert t[0] == '-' || IsDigit(t[0]) by {
      if i >= 0 {
        assert t == NatToString(i);
      }
    }
  }

  /** Floats and booleans in the array count as ids: [1.5, true] gives
      the list [1, 1], and [-2.5] the list [-2]. */
  lemma NormalizeFloatsAndBools()
    ensures ListOrAll(Convertible([FloatItem(1.5), BoolItem(true)])) == (ListAccess, [1, 1])
    ensures ListOrAll(Convertible([FloatItem(-2.5)])) == (ListAccess, [-2])
    ensures ListOrAll(Convertible([OtherItem, BoolItem(false)])) == (ListAccess, [0])
  {
    assert TruncReal(1.5) == 1 && TruncReal(-2.5) == -2;
    var a, b, c := [FloatItem(1.5), BoolItem(true)], [FloatItem(-2.5)], [OtherItem, BoolItem(false)];
    assert a[..1] == [FloatItem(1.5)] && [FloatItem(1.5)][..0] == [];
    assert Convertible([FloatItem(1.5)]) == [1];
    assert Convertible(a) == [1, 1];
    assert b[..0] == [];
    assert Convertible(b) == [-2];
    assert c[..1] == [OtherItem] && [OtherItem][..0] == [];
    assert Convertible([OtherItem]) == [];
    assert Convertible(c) == [0];
  }

  // ---- resolve_effective_ui_vs_user ----

  /** [v for v in ui if v in user] */
  function Intersect(ui: seq<int>, user: seq<int>): (r: seq<int>)
    ensures |r| <= |ui|
  {
    if |ui| == 0 then []
    else
      var n := |ui| - 1;
      Intersect(ui[..n], user) + (if ui[n] in user then [ui[n]] else [])
  }

  lemma {:induction false} IntersectHas(ui: seq<int>, user: seq<int>, x: int)
    ensures x in Intersect(ui, user) <==> x in ui && x in user
  {
    if |ui| > 0 {
      var n := |ui| - 1;
      IntersectHas(ui[..n], user, x);
      assert ui == ui[..n] + [ui[n]];
    }
  }

  /** resolve_effective_ui_vs_user; an absent ui list is []. The list
      part is None when nothing restricts. */
  function ResolveEffective(ui: seq<int>, userMode: Mode, user: seq<int>): (r: (Mode, Option<seq<int>>))
    ensures r.0 == NoAccess ==> r.1 == Some([])
    ensures r.0 == AllAccess <==> r.1.None?
    ensures r.0 == AllAccess <==> userMode == AllAccess && ui == []
  {
    if userMode == NoAccess then (NoAccess, Some([]))
    else if userMode == AllAccess then
      if ui != [] then (ListAccess, Some(ui)) else (AllAccess, None)
    else if ui != [] then
      var inter := Intersect(ui, user);
      if inter == [] then (NoAccess, Some([])) else (ListAccess, Some(inter))
    else (ListAccess, Some(user))
  }

  /** The effective scope never widens what the user may see: with a
      whitelist, every id returned is in the whitelist (and in the UI list
      when one is given); with "all", it is the UI list; an empty
      intersection is no access. */
  lemma ResolveNarrows(ui: seq<int>, userMode: Mode, user: seq<int>)
    ensures var r := ResolveEffective(ui, userMode, user);
      && (userMode == NoAccess ==> r == (NoAccess, Some([])))
      && (userMode == AllAccess && ui != [] ==> r == (ListAccess, Some(ui)))
      && (userMode == ListAccess && ui == [] ==> r == (ListAccess, Some(user)))
      && (userMode == ListAccess && ui != [] ==>
            (r.0 == NoAccess <==> forall x :: x in ui ==> x !in user) &&
            (r.0 == ListAccess ==> forall x :: x in r.1.value <==> x in ui && x in user))
  {
    if userMode == ListAccess && ui != [] {
      forall x ensures x in Intersect(ui, user) <==> x in ui && x in user {
        IntersectHas(ui, user, x);
      }
      if Intersect(ui, user) != [] {
        var x := Intersect(ui, user)[0];
        assert x in ui && x in user;
      }
    }
  }
}
