/** The dashboard helpers' ensure_warehouse_join, which adds the warehouse
    join to the caller's join list in place unless it is already there, and
    the customer dashboard's customer_level_filter. */
module WarehouseJoinHelpers {
  import opened Text
  import opened Sorting
  import opened FilterHelper

  /** The join list after ensure_warehouse_join. */
  function WithWarehouseJoin(joins: seq<string>): (r: seq<string>)
    ensures WarehouseJoin in r
    ensures |joins| <= |r| <= |joins| + 1 && r[..|joins|] == joins
    ensures forall x :: x in r <==> x in joins || x == WarehouseJoin
  {
    if WarehouseJoin in joins then joins else joins + [WarehouseJoin]
  }

  /** A caller's list of JOIN lines, which the helper updates in place. */
  class JoinList {
    var joins: seq<string>

    constructor (joins: seq<string>)
      ensures this.joins == joins
    {
      this.joins := joins;
    }

    /** ensure_warehouse_join(joins) */
    method EnsureWarehouseJoin()
      modifies this
      ensures joins == WithWarehouseJoin(old(joins))
    {
      if WarehouseJoin !in joins {
        joins := joins + [WarehouseJoin];
      }
    }
  }

  /** Calling it twice is calling it once. */
  lemma EnsureIdempotent(joins: seq<string>)
    ensures WithWarehouseJoin(WithWarehouseJoin(joins)) == WithWarehouseJoin(joins)
  {
  }

  /** The list is unchanged exactly when it already holds the join, and
      otherwise grows by that one line at the end. */
  lemma EnsureChangesOnlyWhenAbsent(joins: seq<string>)
    ensures WithWarehouseJoin(joins) == joins <==> WarehouseJoin in joins
    ensures WarehouseJoin !in joins ==> WithWarehouseJoin(joins) == joins + [WarehouseJoin]
  {
  }

  /** A list without repeats keeps none. */
  lemma EnsureKeepsNoDup(joins: seq<string>)
    requires NoDup(joins)
    ensures NoDup(WithWarehouseJoin(joins))
  {
  }

  /** customer_level_filter: the predicate restricting customers to the
      selected level's ids. Each text is written as the part before the
      bind parameter, the parameter, and the part after it. */
  function CustomerLevelFilter(level: string): (r: string)
    ensures r == "1=1" <==> level !in {"route", "warehouse", "area", "region"}
  {
    if level == "route" then "ac.route_id = ANY(" + ":route_ids" + ")"
    else if level == "warehouse" then "ac.warehouse = ANY(" + ":warehouse_ids" + ")"
    else if level == "area" then SubSelect + "area_id = ANY(" + ":area_ids" + "))"
    else if level == "region" then SubSelect + "region_id = ANY(" + ":region_ids" + "))"
    else "1=1"
  }

  const SubSelect := "ac.warehouse IN (SELECT id FROM tbl_warehouse WHERE "

  lemma OccursBetween(a: string, p: string, b: string)
    ensures OccursAt(a + p + b, p, |a|)
  {
    assert (a + p + b)[|a|..|a| + |p|] == p;
  }

  /** Each of the four levels binds the parameter named after it. */
  lemma LevelFilterNamesItsParam(level: string)
    requires level in {"route", "warehouse", "area", "region"}
    ensures exists j :: OccursAt(CustomerLevelFilter(level), ":" + level + "_ids", j)
  {
    var r := CustomerLevelFilter(level);
    if level == "route" {
      assert r == "ac.route_id = ANY(" + ":route_ids" + ")";
      assert ":" + level + "_ids" == ":route_ids";
      OccursBetween("ac.route_id = ANY(", ":route_ids", ")");
    } else if level == "warehouse" {
      assert r == "ac.warehouse = ANY(" + ":warehouse_ids" + ")";
      assert ":" + level + "_ids" == ":warehouse_ids";
      OccursBetween("ac.warehouse = ANY(", ":warehouse_ids", ")");
    } else if level == "area" {
      assert r == SubSelect + "area_id = ANY(" + ":area_ids" + "))";
      assert ":" + level + "_ids" == ":area_ids";
      OccursBetween(SubSelect + "area_id = ANY(", ":area_ids", "))");
    } else {
      assert r == SubSelect + "region_id = ANY(" + ":region_ids" + "))";
      assert ":" + level + "_ids" == ":region_ids";
      OccursBetween(SubSelect + "region_id = ANY(", ":region_ids", "))");
    }
  }
}
