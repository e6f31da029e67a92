/** The dictionaries the exports fill row by row with
    `m.setdefault(key, {}).setdefault(period, 0.0); m[key][period] += v`:
    an insertion-ordered map from item keys to their column sums. */
module PivotFold {
  import opened Sorting
  import opened Pivot

  /** One row's addition: the item it belongs to, its column and its value. */
  datatype Contribution<C> = Contribution(key: ItemKey, column: C, value: real)

  /** A dict of dicts; `order` is the order the item keys were inserted in. */
  datatype PivotMap<C> = PivotMap(order: seq<ItemKey>, cells: map<ItemKey, map<C, real>>)

  const EmptyPivot: PivotMap<string> := PivotMap([], map[])

  ghost predicate WellFormed<C>(pm: PivotMap<C>)
  {
    NoDup(pm.order) && forall k :: k in pm.cells <==> k in pm.order
  }

  /** dict.items() of the outer dict, as the entries a sheet is written from. */
  function Entries<C>(pm: PivotMap<C>): seq<Entry<C>>
    requires WellFormed(pm)
  {
    seq(|pm.order|, i requires 0 <= i < |pm.order| => Entry(pm.order[i], pm.cells[pm.order[i]]))
  }

  /** One setdefault/+= step. */
  function Add<C>(pm: PivotMap<C>, c: Contribution<C>): PivotMap<C>
  {
    var row := if c.key in pm.cells then pm.cells[c.key] else map[];
    var sum := Cell(row, c.column) + c.value;
    PivotMap(if c.key in pm.cells then pm.order else pm.order + [c.key],
             pm.cells[c.key := row[c.column := sum]])
  }

  /** The dict after adding the contributions in order, starting empty. */
  function PivotOf<C>(cs: seq<Contribution<C>>): PivotMap<C>
  {
    if |cs| == 0 then PivotMap([], map[]) else Add(PivotOf(cs[..|cs| - 1]), cs[|cs| - 1])
  }

  function KeysOf<C>(cs: seq<Contribution<C>>): seq<ItemKey>
  {
    seq(|cs|, i requires 0 <= i < |cs| => cs[i].key)
  }

  /** The sum of the values added to (key, column). */
  function SumWhere<C(==)>(cs: seq<Contribution<C>>, k: ItemKey, col: C): real
  {
    if |cs| == 0 then 0.0
    else
      var c := cs[|cs| - 1];
      SumWhere(cs[..|cs| - 1], k, col) + (if c.key == k && c.column == col then c.value else 0.0)
  }

  predicate Touched<C(==)>(cs: seq<Contribution<C>>, k: ItemKey, col: C)
  {
    exists i :: 0 <= i < |cs| && cs[i].key == k && cs[i].column == col
  }

  lemma TouchedStep<C>(cs: seq<Contribution<C>>, k: ItemKey, col: C)
    requires |cs| > 0
    ensures var c := cs[|cs| - 1];
            Touched(cs, k, col) <==> Touched(cs[..|cs| - 1], k, col) || (c.key == k && c.column == col)
  {
    var n := |cs| - 1;
    if Touched(cs, k, col) {
      var i :| 0 <= i < |cs| && cs[i].key == k && cs[i].column == col;
      if i < n {
        assert cs[..n][i] == cs[i];
      }
    }
    if Touched(cs[..n], k, col) {
      var i :| 0 <= i < n && cs[..n][i].key == k && cs[..n][i].column == col;
      assert cs[i] == cs[..n][i];
    }
  }

  /** The folded dict holds each item key once, in first-seen order. */
  lemma {:induction false} PivotOfOrder<C>(cs: seq<Contribution<C>>)
    ensures WellFormed(PivotOf(cs))
    ensures PivotOf(cs).order == Dedup(KeysOf(cs))
  {
    if |cs| > 0 {
      var n := |cs| - 1;
      PivotOfOrder(cs[..n]);
      DedupMembers(KeysOf(cs[..n]));
      assert KeysOf(cs)[..n] == KeysOf(cs[..n]);
    }
  }

  /** A cell exists exactly where some row added to it, and holds the sum
      of what was added there; an item no row names has no cells. */
  lemma {:induction false} PivotOfCells<C>(cs: seq<Contribution<C>>)
    ensures forall k, col :: k in PivotOf(cs).cells ==>
              (col in PivotOf(cs).cells[k] <==> Touched(cs, k, col)) &&
              Cell(PivotOf(cs).cells[k], col) == SumWhere(cs, k, col)
    ensures forall k, col :: k !in PivotOf(cs).cells ==> !Touched(cs, k, col) && SumWhere(cs, k, col) == 0.0
  {
    if |cs| > 0 {
      var n := |cs| - 1;
      PivotOfCells(cs[..n]);
      forall k, col {
        TouchedStep(cs, k, col);
      }
    }
  }

  /** A sheet's entries are the folded dict's keys in first-seen order. */
  lemma EntriesOfPivot<C>(cs: seq<Contribution<C>>)
    ensures WellFormed(PivotOf(cs))
    ensures var es := Entries(PivotOf(cs));
            |es| == |Dedup(KeysOf(cs))| &&
            forall i :: 0 <= i < |es| ==>
              (es[i].key == Dedup(KeysOf(cs))[i] &&
               forall col :: Cell(es[i].cells, col) == SumWhere(cs, es[i].key, col))
  {
    PivotOfOrder(cs);
    PivotOfCells(cs);
  }

  lemma PivotOfSnoc<C>(cs: seq<Contribution<C>>, c: Contribution<C>)
    ensures PivotOf(cs + [c]) == Add(PivotOf(cs), c)
  {
    assert (cs + [c])[..|cs|] == cs;
  }

  /** The columns the contributions name, as a set (periods_set). */
  function ColumnSet<C>(cs: seq<Contribution<C>>): set<C>
  {
    if |cs| == 0 then {} else ColumnSet(cs[..|cs| - 1]) + {cs[|cs| - 1].column}
  }

  lemma ColumnSetMembers<C>(cs: seq<Contribution<C>>)
    ensures forall p :: p in ColumnSet(cs) <==> exists i :: 0 <= i < |cs| && cs[i].column == p
  {
    forall p ensures p in ColumnSet(cs) <==> exists i :: 0 <= i < |cs| && cs[i].column == p {
      ColumnSetHas(cs, p);
    }
  }

  lemma {:induction false} ColumnSetHas<C>(cs: seq<Contribution<C>>, p: C)
    ensures p in ColumnSet(cs) <==> exists i :: 0 <= i < |cs| && cs[i].column == p
  {
    if |cs| > 0 {
      var n := |cs| - 1;
      ColumnSetHas(cs[..n], p);
      if p in ColumnSet(cs[..n]) {
        var i :| 0 <= i < n && cs[..n][i].column == p;
        assert cs[i] == cs[..n][i];
      }
      if exists i :: 0 <= i < |cs| && cs[i].column == p {
        var i :| 0 <= i < |cs| && cs[i].column == p;
        if i < n {
          assert cs[..n][i] == cs[i];
        }
      }
    }
  }

  lemma ColumnSetSnoc<C>(cs: seq<Contribution<C>>, c: Contribution<C>)
    ensures ColumnSet(cs + [c]) == ColumnSet(cs) + {c.column}
  {
    assert (cs + [c])[..|cs|] == cs;
  }

  /** The columns of the contributions, one per contribution. */
  function Columns<C>(cs: seq<Contribution<C>>): (ps: seq<C>)
    ensures |ps| == |cs|
  {
    seq(|cs|, i requires 0 <= i < |cs| => cs[i].column)
  }

  /** list(periods_set) in first-seen order holds each column once. */
  lemma DedupColumns<C>(cs: seq<Contribution<C>>)
    ensures NoDup(Dedup(Columns(cs)))
    ensures forall p :: p in Dedup(Columns(cs)) <==> p in ColumnSet(cs)
  {
    var ps := Columns(cs);
    DedupMembers(ps);
    forall p | p in ps ensures p in ColumnSet(cs) {
      var i :| 0 <= i < |ps| && ps[i] == p;
      ColumnSetHas(cs, p);
    }
    forall p | p in ColumnSet(cs) ensures p in ps {
      ColumnSetHas(cs, p);
      var i :| 0 <= i < |cs| && cs[i].column == p;
      assert ps[i] == p;
    }
  }

  /** The setdefault/+= step as the route writes it. */
  method AddRow<C>(pm: PivotMap<C>, c: Contribution<C>) returns (r: PivotMap<C>)
    ensures r == Add(pm, c)
  {
    var row: map<C, real> := map[];
    var order := pm.order;
    if c.key in pm.cells {
      row := pm.cells[c.key];
    } else {
      order := order + [c.key];
    }
    if c.column !in row {
      row := row[c.column := 0.0];
    }
    row := row[c.column := row[c.column] + c.value];
    var before := if c.key in pm.cells then pm.cells[c.key] else map[];
    assert row == before[c.column := Cell(before, c.column) + c.value];
    r := PivotMap(order, pm.cells[c.key := row]);
  }
}

/** The per-entity dictionaries of the exports' fan-out: an
    insertion-ordered map from an entity to its own item pivot, a row
    being added to the pivot of every entity it is routed to. */
module EntityFold {
  import opened Sorting
  import opened Pivot
  import opened PivotFold

  datatype EntityPivot<E, C> = EntityPivot(order: seq<E>, maps: map<E, PivotMap<C>>)

  /** A row's contribution and the entities it is routed to. */
  datatype Routed<E, C> = Routed(targets: seq<E>, contribution: Contribution<C>)

  /** entity_map.setdefault(e, {}) followed by the pivot step. */
  function AddTo<E, C>(ep: EntityPivot<E, C>, e: E, c: Contribution<C>): EntityPivot<E, C>
  {
    var pm := if e in ep.maps then ep.maps[e] else PivotMap([], map[]);
    EntityPivot(if e in ep.maps then ep.order else ep.order + [e], ep.maps[e := Add(pm, c)])
  }

  function AddAll<E, C>(ep: EntityPivot<E, C>, ts: seq<E>, c: Contribution<C>): EntityPivot<E, C>
  {
    if |ts| == 0 then ep else AddTo(AddAll(ep, ts[..|ts| - 1], c), ts[|ts| - 1], c)
  }

  /** The entity dict after the rows, in order, starting empty. */
  function FanOut<E, C>(rs: seq<Routed<E, C>>): EntityPivot<E, C>
  {
    if |rs| == 0 then EntityPivot([], map[])
    else
      var r := rs[|rs| - 1];
      AddAll(FanOut(rs[..|rs| - 1]), r.targets, r.contribution)
  }

  /** Every routing target, row by row. */
  function AllTargets<E, C>(rs: seq<Routed<E, C>>): seq<E>
  {
    if |rs| == 0 then [] else AllTargets(rs[..|rs| - 1]) + rs[|rs| - 1].targets
  }

  /** The contributions routed to e, in row order. */
  function ContribsFor<E(==), C>(rs: seq<Routed<E, C>>, e: E): seq<Contribution<C>>
  {
    if |rs| == 0 then []
    else
      var r := rs[|rs| - 1];
      ContribsFor(rs[..|rs| - 1], e) + (if e in r.targets then [r.contribution] else [])
  }

  ghost predicate Represents<E(!new), C>(ep: EntityPivot<E, C>, all: seq<E>, rs: seq<Routed<E, C>>)
  {
    ep.order == Dedup(all) &&
    (forall e :: e in ep.maps <==> e in all) &&
    (forall e :: e in ep.maps ==> ep.maps[e] == PivotOf(ContribsFor(rs, e))) &&
    (forall e :: e !in all ==> ContribsFor(rs, e) == [])
  }

  /** The pivot of e before a step; a new entity starts empty. */
  function PivotAt<E, C>(ep: EntityPivot<E, C>, e: E): PivotMap<C>
  {
    if e in ep.maps then ep.maps[e] else PivotMap([], map[])
  }

  lemma {:induction false} AddAllMaps<E(!new), C>(ep: EntityPivot<E, C>, ts: seq<E>, c: Contribution<C>)
    requires NoDup(ts)
    ensures var r := AddAll(ep, ts, c);
            (forall e :: e in r.maps <==> e in ep.maps || e in ts) &&
            forall e :: e in r.maps ==> r.maps[e] == if e in ts then Add(PivotAt(ep, e), c) else PivotAt(ep, e)
  {
    if |ts| > 0 {
      var n := |ts| - 1;
      var init := ts[..n];
      assert NoDup(init);
      AddAllMaps(ep, init, c);
      assert ts[n] !in init;
      assert ts == init + [ts[n]];
    }
  }

  lemma {:induction false} AddAllOrder<E(!new), C>(ep: EntityPivot<E, C>, ts: seq<E>, c: Contribution<C>, all: seq<E>)
    requires ep.order == Dedup(all) && forall e :: e in ep.maps <==> e in all
    ensures AddAll(ep, ts, c).order == Dedup(all + ts)
  {
    if |ts| > 0 {
      var n := |ts| - 1;
      var init := ts[..n];
      var x := ts[n];
      var mid := AddAll(ep, init, c);
      AddAllOrder(ep, init, c, all);
      AddAllKeysOnly(ep, init, c);
      assert AddAll(ep, ts, c) == AddTo(mid, x, c);
      AppendSnoc(all, ts);
      DedupSnoc(all + init, x);
      assert x in mid.maps <==> x in all + init;
    } else {
      assert all + ts == all;
    }
  }

  lemma {:induction false} AddAllKeysOnly<E(!new), C>(ep: EntityPivot<E, C>, ts: seq<E>, c: Contribution<C>)
    ensures forall e :: e in AddAll(ep, ts, c).maps <==> e in ep.maps || e in ts
  {
    if |ts| > 0 {
      AddAllKeysOnly(ep, ts[..|ts| - 1], c);
      assert forall e :: e in ts <==> e in ts[..|ts| - 1] || e == ts[|ts| - 1];
    }
  }

  /** Each entity's dict is the pivot of exactly the rows routed to it, and
      the entities appear in the order rows first name them. */
  lemma {:induction false} FanOutSpec<E(!new), C>(rs: seq<Routed<E, C>>)
    requires forall i :: 0 <= i < |rs| ==> NoDup(rs[i].targets)
    ensures Represents(FanOut(rs), AllTargets(rs), rs)
  {
    if |rs| > 0 {
      var n := |rs| - 1;
      var init := rs[..n];
      FanOutSpec(init);
      assert rs == init + [rs[n]];
      RepresentsStep(FanOut(init), AllTargets(init), init, rs[n]);
    }
  }

  /** Adding one row's contribution to each of its targets keeps the
      entity dict a faithful picture of the rows so far. */
  lemma RepresentsStep<E(!new), C>(ep: EntityPivot<E, C>, all: seq<E>, init: seq<Routed<E, C>>, r: Routed<E, C>)
    requires Represents(ep, all, init) && NoDup(r.targets)
    ensures Represents(AddAll(ep, r.targets, r.contribution), all + r.targets, init + [r])
  {
    var rs := init + [r];
    var res := AddAll(ep, r.targets, r.contribution);
    assert rs[..|init|] == init;
    AddAllOrder(ep, r.targets, r.contribution, all);
    AddAllMaps(ep, r.targets, r.contribution);
    forall e ensures ContribsFor(rs, e) == ContribsFor(init, e) + (if e in r.targets then [r.contribution] else []) {
    }
    forall e | e in res.maps ensures res.maps[e] == PivotOf(ContribsFor(rs, e)) {
      PivotOfSnoc(ContribsFor(init, e), r.contribution);
      assert ContribsFor(init, e) + [] == ContribsFor(init, e);
    }
  }

  /** A row reaches the pivot of entity e exactly when it is routed to e. */
  lemma {:induction false} ContribsForMembers<E, C>(rs: seq<Routed<E, C>>, e: E, c: Contribution<C>)
    requires c in ContribsFor(rs, e)
    ensures exists i :: 0 <= i < |rs| && e in rs[i].targets && rs[i].contribution == c
  {
    var n := |rs| - 1;
    if c in ContribsFor(rs[..n], e) {
      ContribsForMembers(rs[..n], e, c);
      var i :| 0 <= i < n && e in rs[..n][i].targets && rs[..n][i].contribution == c;
      assert rs[i] == rs[..n][i];
    }
  }

  /** Routing to one more target adds that target's step. */
  lemma AddAllSnoc<E, C>(ep: EntityPivot<E, C>, ts: seq<E>, k: nat, c: Contribution<C>)
    requires k < |ts|
    ensures AddAll(ep, ts[..k + 1], c) == AddTo(AddAll(ep, ts[..k], c), ts[k], c)
  {
    assert ts[..k + 1][..k] == ts[..k];
  }

  /** The fan-out step as the route writes it. */
  method AddToEntity<E, C>(ep: EntityPivot<E, C>, e: E, c: Contribution<C>) returns (r: EntityPivot<E, C>)
    ensures r == AddTo(ep, e, c)
  {
    var pm := PivotMap([], map[]);
    var order := ep.order;
    if e in ep.maps {
      pm := ep.maps[e];
    } else {
      order := order + [e];
    }
    pm := AddRow(pm, c);
    r := EntityPivot(order, ep.maps[e := pm]);
  }
}
