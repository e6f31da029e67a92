/** The "first non-empty id list wins" chains that pick the level a report
    is grouped or split by: get_deepest in both export helpers and
    determine_default_entities. */
module Hierarchy {
  import opened Wrappers
  import opened Text

  /** The id lists of a request; an absent list is empty. */
  datatype Selection = Selection(
    companyIds: seq<int>, regionIds: seq<int>, areaIds: seq<int>, warehouseIds: seq<int>,
    routeIds: seq<int>, salesmanIds: seq<int>, customerChannelIds: seq<int>,
    customerCategoryIds: seq<int>, customerIds: seq<int>,
    itemIds: seq<int>, itemCategoryIds: seq<int>, brandIds: seq<int>)

  datatype Level =
    | Company | Region | Area | Warehouse | Route | Salesman | RouteSalesman
    | CustomerChannel | CustomerCategory | Customer

  /** The level name the sources return. */
  function LevelName(l: Level): string
  {
    match l
    case Company => "company"
    case Region => "region"
    case Area => "area"
    case Warehouse => "warehouse"
    case Route => "route"
    case Salesman => "salesman"
    case RouteSalesman => "route_salesman"
    case CustomerChannel => "customer_channel"
    case CustomerCategory => "customer_category"
    case Customer => "customer"
  }

  /** The first level of a precedence table whose condition holds, or the
      fallback when none does. */
  function FirstSelected(chain: seq<(Level, bool)>, fallback: Level): (r: Level)
    ensures (forall k :: 0 <= k < |chain| ==> !chain[k].1) ==> r == fallback
    ensures forall k :: 0 <= k < |chain| && chain[k].1 && (forall j :: 0 <= j < k ==> !chain[j].1) ==> r == chain[k].0
  {
    if |chain| == 0 then fallback
    else if chain[0].1 then chain[0].0
    else
      var r := FirstSelected(chain[1..], fallback);
      assert forall k :: 1 <= k < |chain| ==> chain[k] == chain[1..][k - 1];
      r
  }

  /** FirstSelected on the entries from i on tests entry i first. */
  lemma FirstSelectedFrom(chain: seq<(Level, bool)>, fallback: Level, i: nat)
    requires i <= |chain|
    ensures FirstSelected(chain[i..], fallback) ==
            if i == |chain| then fallback
            else if chain[i].1 then chain[i].0
            else FirstSelected(chain[i + 1..], fallback)
  {
    if i < |chain| {
      assert chain[i..][1..] == chain[i + 1..];
    }
  }

  // ----- get_deepest (sales export helper) -----

  function SalesPrecedence(p: Selection): seq<(Level, bool)>
  {
    [(Customer, p.customerIds != []), (CustomerCategory, p.customerCategoryIds != []),
     (CustomerChannel, p.customerChannelIds != []),
     (RouteSalesman, p.routeIds != [] || p.salesmanIds != []),
     (Warehouse, p.warehouseIds != []), (Area, p.areaIds != []), (Region, p.regionIds != [])]
  }

  /** get_deepest: customer > customer category > customer channel > route
      or salesman > warehouse > area > region, else company. */
  function GetDeepest(p: Selection): Level
  {
    if p.customerIds != [] then Customer
    else if p.customerCategoryIds != [] then CustomerCategory
    else if p.customerChannelIds != [] then CustomerChannel
    else if p.routeIds != [] || p.salesmanIds != [] then RouteSalesman
    else if p.warehouseIds != [] then Warehouse
    else if p.areaIds != [] then Area
    else if p.regionIds != [] then Region
    else Company
  }

  /** GetDeepest agrees with its precedence table. */
  lemma GetDeepestPrecedence(p: Selection)
    ensures GetDeepest(p) == FirstSelected(SalesPrecedence(p), Company)
  {
    var c := SalesPrecedence(p);
    assert c[0..] == c;
    FirstSelectedFrom(c, Company, 0);
    FirstSelectedFrom(c, Company, 1);
    FirstSelectedFrom(c, Company, 2);
    FirstSelectedFrom(c, Company, 3);
    FirstSelectedFrom(c, Company, 4);
    FirstSelectedFrom(c, Company, 5);
    FirstSelectedFrom(c, Company, 6);
    FirstSelectedFrom(c, Company, 7);
  }

  // ----- get_deepest (item export helper) -----

  function ItemExportPrecedence(p: Selection): seq<(Level, bool)>
  {
    [(Route, p.routeIds != []), (Warehouse, p.warehouseIds != []), (Area, p.areaIds != []),
     (Region, p.regionIds != [])]
  }

  /** get_deepest of the item export: route > warehouse > area > region,
      else company. */
  function ItemGetDeepest(p: Selection): Level
  {
    if p.routeIds != [] then Route
    else if p.warehouseIds != [] then Warehouse
    else if p.areaIds != [] then Area
    else if p.regionIds != [] then Region
    else Company
  }

  /** ItemGetDeepest agrees with its precedence table. */
  lemma ItemGetDeepestPrecedence(p: Selection)
    ensures ItemGetDeepest(p) == FirstSelected(ItemExportPrecedence(p), Company)
  {
    var c := ItemExportPrecedence(p);
    assert c[0..] == c;
    FirstSelectedFrom(c, Company, 0);
    FirstSelectedFrom(c, Company, 1);
    FirstSelectedFrom(c, Company, 2);
    FirstSelectedFrom(c, Company, 3);
    FirstSelectedFrom(c, Company, 4);
  }


  function DefaultPrecedence(p: Selection): seq<(Level, bool)>
  {
    [(Customer, p.customerIds != []), (CustomerCategory, p.customerCategoryIds != []),
     (CustomerChannel, p.customerChannelIds != []), (Salesman, p.salesmanIds != []),
     (Route, p.routeIds != []), (Warehouse, p.warehouseIds != []), (Area, p.areaIds != []),
     (Region, p.regionIds != [])]
  }

  /** The level determine_default_entities picks. */
  function DefaultLevel(p: Selection): Level
  {
    FirstSelected(DefaultPrecedence(p), Company)
  }

  /** DefaultLevel spelled out as the chain of tests it is. */
  lemma DefaultLevelChain(p: Selection)
    ensures DefaultLevel(p) ==
      if p.customerIds != [] then Customer
      else if p.customerCategoryIds != [] then CustomerCategory
      else if p.customerChannelIds != [] then CustomerChannel
      else if p.salesmanIds != [] then Salesman
      else if p.routeIds != [] then Route
      else if p.warehouseIds != [] then Warehouse
      else if p.areaIds != [] then Area
      else if p.regionIds != [] then Region
      else Company
  {
    var c := DefaultPrecedence(p);
    assert c[0..] == c;
    FirstSelectedFrom(c, Company, 0);
    FirstSelectedFrom(c, Company, 1);
    FirstSelectedFrom(c, Company, 2);
    FirstSelectedFrom(c, Company, 3);
    FirstSelectedFrom(c, Company, 4);
    FirstSelectedFrom(c, Company, 5);
    FirstSelectedFrom(c, Company, 6);
    FirstSelectedFrom(c, Company, 7);
    FirstSelectedFrom(c, Company, 8);
  }

  /** The ids the request selects at a level. */
  function SelectedIds(p: Selection, l: Level): seq<int>
  {
    match l
    case Customer => p.customerIds
    case CustomerCategory => p.customerCategoryIds
    case CustomerChannel => p.customerChannelIds
    case Salesman => p.salesmanIds
    case Route => p.routeIds
    case Warehouse => p.warehouseIds
    case Area => p.areaIds
    case Region => p.regionIds
    case Company => p.companyIds
    case _ => []
  }

  /** _ensure_map: the name map stored under the level, completed with
      str(id) for every id it lacks; a missing or empty map becomes
      {id: str(id)}. Names already present are kept. */
  method EnsureMap(nameMaps: map<string, map<int, string>>, key: string, ids: seq<int>)
    returns (nm: map<int, string>)
    ensures var known := if key in nameMaps then nameMaps[key] else map[];
            (forall id :: id in nm <==> id in ids || (known != map[] && id in known)) &&
            (forall id :: id in nm ==> nm[id] == if known != map[] && id in known then known[id] else IntToString(id))
  {
    if key !in nameMaps || nameMaps[key] == map[] {
      nm := map id | id in ids :: IntToString(id);
    } else {
      var known := nameMaps[key];
      nm := known;
      var i := 0;
      while i < |ids|
        invariant 0 <= i <= |ids|
        invariant forall id :: id in nm <==> id in ids[..i] || id in known
        invariant forall id :: id in nm ==> nm[id] == if id in known then known[id] else IntToString(id)
      {
        var id := ids[i];
        if id !in nm {
          nm := nm[id := IntToString(id)];
        }
        assert ids[..i + 1] == ids[..i] + [id];
        i := i + 1;
      }
      assert ids[..i] == ids;
    }
  }

  /** determine_default_entities: the level and ids of the default view,
      customer > customer category > customer channel > salesman > route >
      warehouse > area > region > company, with company ids defaulting to
      [1], and a name for every id. */
  method DetermineDefaultEntities(p: Selection, nameMaps: map<string, map<int, string>>)
    returns (level: Level, ids: seq<int>, names: map<int, string>)
    ensures level == DefaultLevel(p)
    ensures ids == if level == Company && p.companyIds == [] then [1] else SelectedIds(p, level)
    ensures |ids| > 0
    ensures forall id :: id in ids ==> id in names
    ensures var key := LevelName(level);
            forall id :: id in names ==>
              names[id] == if key in nameMaps && id in nameMaps[key] then nameMaps[key][id] else IntToString(id)
  {
    if p.customerIds != [] {
      level, ids := Customer, p.customerIds;
    } else if p.customerCategoryIds != [] {
      level, ids := CustomerCategory, p.customerCategoryIds;
    } else if p.customerChannelIds != [] {
      level, ids := CustomerChannel, p.customerChannelIds;
    } else if p.salesmanIds != [] {
      level, ids := Salesman, p.salesmanIds;
    } else if p.routeIds != [] {
      level, ids := Route, p.routeIds;
    } else if p.warehouseIds != [] {
      level, ids := Warehouse, p.warehouseIds;
    } else if p.areaIds != [] {
      level, ids := Area, p.areaIds;
    } else if p.regionIds != [] {
      level, ids := Region, p.regionIds;
    } else {
      level := Company;
      ids := if p.companyIds != [] then p.companyIds else [1];
    }
    DefaultLevelChain(p);
    names := EnsureMap(nameMaps, LevelName(level), ids);
  }
}
