/** The pieces of SQL text the helpers assemble. A WHERE predicate is kept
    as a small tree so that the bind parameters it references can be read
    off; Render gives the exact text the helpers append. */
module Sql {
  import opened Text

  datatype Pred =
    | BetweenNamed(col: string, lo: string, hi: string)   // col BETWEEN :lo AND :hi
    | AnyNamed(col: string, name: string)                 // col = ANY(:name)
    | InNamed(col: string, name: string)                  // col IN :name
    | EqNamed(col: string, name: string)                  // col = :name
    | BetweenPos(col: string, first: nat, second: nat)   // col BETWEEN $first AND $second
    | AnyPos(col: string, index: nat)                     // col = ANY($index)
    | Fixed(text: string)                                 // no bind parameter

  function Render(p: Pred): string
  {
    match p
    case BetweenNamed(c, lo, hi) => c + " BETWEEN :" + lo + " AND :" + hi
    case AnyNamed(c, n) => c + " = ANY(:" + n + ")"
    case InNamed(c, n) => c + " IN :" + n
    case EqNamed(c, n) => c + " = :" + n
    case BetweenPos(c, lo, hi) => c + " BETWEEN $" + NatToString(lo) + " AND $" + NatToString(hi)
    case AnyPos(c, k) => c + " = ANY($" + NatToString(k) + ")"
    case Fixed(t) => t
  }

  /** The named bind parameters a predicate references. */
  function Names(p: Pred): set<string>
  {
    match p
    case BetweenNamed(_, lo, hi) => {lo, hi}
    case AnyNamed(_, n) => {n}
    case InNamed(_, n) => {n}
    case EqNamed(_, n) => {n}
    case _ => {}
  }

  /** The positional placeholders a predicate references, left to right. */
  function Positions(p: Pred): seq<nat>
  {
    match p
    case BetweenPos(_, lo, hi) => [lo, hi]
    case AnyPos(_, k) => [k]
    case _ => []
  }

  function AllPositions(ps: seq<Pred>): seq<nat>
  {
    if |ps| == 0 then [] else AllPositions(ps[..|ps| - 1]) + Positions(ps[|ps| - 1])
  }

  /** Every named parameter some predicate references has a value. */
  predicate AllBound(ps: seq<Pred>, keys: set<string>)
  {
    forall i :: 0 <= i < |ps| ==> Names(ps[i]) <= keys
  }

  /** The text of each predicate, in order. */
  function RenderAll(ps: seq<Pred>): (ts: seq<string>)
    ensures |ts| == |ps| && forall i :: 0 <= i < |ps| ==> ts[i] == Render(ps[i])
  {
    if |ps| == 0 then [] else RenderAll(ps[..|ps| - 1]) + [Render(ps[|ps| - 1])]
  }

  /** " AND ".join of the predicates' text. */
  function WhereText(ps: seq<Pred>): string
  {
    Join(RenderAll(ps), " AND ")
  }

  /** The WHERE text opens with the first predicate, followed by the rest
      after " AND " when there is a rest. */
  lemma WhereTextCons(ps: seq<Pred>)
    requires |ps| >= 1
    ensures WhereText(ps) == Render(ps[0]) + (if |ps| == 1 then "" else " AND " + WhereText(ps[1..]))
  {
    assert RenderAll(ps)[1..] == RenderAll(ps[1..]);
  }

  /** Values bound to parameters. */
  datatype Value =
    | Text(text: string)
    | Day(ordinal: int)
    | Ids(ids: seq<int>)
    | IdTuple(ids: seq<int>)
    | TextTuple(items: seq<string>)

  /** The filter fields of the request models; an absent list is []. */
  datatype Filters = Filters(
    fromDate: string,
    toDate: string,
    searchType: string,
    displayQuantity: string,
    companyIds: seq<int>,
    regionIds: seq<int>,
    areaIds: seq<int>,
    warehouseIds: seq<int>,
    routeIds: seq<int>,
    salesmanIds: seq<int>,
    itemCategoryIds: seq<int>,
    itemIds: seq<int>,
    brandIds: seq<int>,
    channelIds: seq<int>,
    customerCategoryIds: seq<int>,
    customerIds: seq<int>)

  /** display_quantity compared case-insensitively with "without_free_good"
      (an absent value is ""). */
  predicate WithoutFreeGoodAnyCase(dq: string) { Lower(dq) == "without_free_good" }

  /** display_quantity compared exactly. */
  predicate WithoutFreeGood(dq: string) { dq == "without_free_good" }

  /** x if c holds, else nothing: one optional append. */
  function Opt<T>(c: bool, x: T): seq<T> { if c then [x] else [] }
}
