/** The common shape of the build_query_parts / build_where / build_filters
    family. A builder starts from fixed head predicates and their params,
    runs a chain of `if ids: fragments.append(pred); params[name] = value`
    blocks (a Facet each), may append tail predicates, and collects joins
    under conditions that it finally deduplicates in order. Reference gives the result such a builder must produce; the
    lemmas below say what that result means. */
module QueryParts {
  import opened Sorting
  import opened Sql

  /** One optional block of a builder: when `on`, `pred` is appended and
      `name` is bound to `value`. */
  datatype Facet = Facet(on: bool, pred: Pred, name: string, value: Value)

  /** `if ids:` on a parsed id list */
  predicate Given(ids: seq<int>) { ids != [] }

  /** `if ids: fragments.append(f"{col} = ANY(:{name})"); params[name] = ids` */
  function AnyFacet(ids: seq<int>, col: string, name: string): Facet
  {
    Facet(ids != [], AnyNamed(col, name), name, Ids(ids))
  }

  /** The full output of a builder. */
  datatype Query = Query(joins: seq<string>, parts: seq<Pred>, params: map<string, Value>)

  /** The predicates of the facets that fire, in facet order. */
  function FacetParts(fs: seq<Facet>): seq<Pred>
  {
    if |fs| == 0 then []
    else
      var f := fs[|fs| - 1];
      FacetParts(fs[..|fs| - 1]) + (if f.on then [f.pred] else [])
  }

  /** The number of facets that fire. */
  function Fired(fs: seq<Facet>): nat
  {
    if |fs| == 0 then 0 else Fired(fs[..|fs| - 1]) + (if fs[|fs| - 1].on then 1 else 0)
  }

  /** base with one binding added per facet that fires. */
  function FacetParams(base: map<string, Value>, fs: seq<Facet>): map<string, Value>
  {
    if |fs| == 0 then base
    else
      var f := fs[|fs| - 1];
      var m := FacetParams(base, fs[..|fs| - 1]);
      if f.on then m[f.name := f.value] else m
  }

  /** The fragments and params of a builder after some of its blocks. */
  datatype Stage = Stage(parts: seq<Pred>, params: map<string, Value>)

  /** st with the blocks fs run on it. */
  function Run(st: Stage, fs: seq<Facet>): Stage
  {
    Stage(st.parts + FacetParts(fs), FacetParams(st.params, fs))
  }

  /** What a builder returns: the head, the fragments of the facets that
      fire, then the tail; the base params plus one key per firing facet;
      the joins appended, each once, in first-seen order. */
  function Reference(head: seq<Pred>, base: map<string, Value>, fs: seq<Facet>,
                     tail: seq<Pred>, joins: seq<string>): Query
  {
    var st := Run(Stage(head, base), fs);
    Query(Dedup(joins), st.parts + tail, st.params)
  }

  lemma ReferenceNoTail(head: seq<Pred>, base: map<string, Value>, fs: seq<Facet>, joins: seq<string>)
    ensures var st := Run(Stage(head, base), fs);
            Reference(head, base, fs, [], joins) == Query(Dedup(joins), st.parts, st.params)
  {
    assert Run(Stage(head, base), fs).parts + [] == Run(Stage(head, base), fs).parts;
  }

  /** Facet names are pairwise distinct. */
  predicate DistinctNames(fs: seq<Facet>)
  {
    forall i, j :: 0 <= i < j < |fs| ==> fs[i].name != fs[j].name
  }

  /** Every facet's predicate references its own parameter and no other. */
  predicate SelfBound(fs: seq<Facet>)
  {
    forall i :: 0 <= i < |fs| ==> Names(fs[i].pred) <= {fs[i].name}
  }

  /** Every facet's predicate references exactly its own parameter. */
  predicate OwnNames(fs: seq<Facet>)
  {
    forall i :: 0 <= i < |fs| ==> Names(fs[i].pred) == {fs[i].name}
  }

  /** No facet rebinds a base parameter. */
  predicate FreshNames(base: map<string, Value>, fs: seq<Facet>)
  {
    forall i :: 0 <= i < |fs| ==> fs[i].name !in base
  }

  // ---- the meaning of the reference ----

  lemma {:induction false} FiredLength(fs: seq<Facet>)
    ensures |FacetParts(fs)| == Fired(fs)
  {
    if |fs| > 0 {
      FiredLength(fs[..|fs| - 1]);
    }
  }

  /** A fragment is emitted iff some facet with that predicate fires. */
  lemma {:induction false} FacetPartsHas(fs: seq<Facet>, p: Pred)
    ensures p in FacetParts(fs) <==> exists i :: 0 <= i < |fs| && fs[i].on && fs[i].pred == p
  {
    if |fs| > 0 {
      var n := |fs| - 1;
      FacetPartsHas(fs[..n], p);
      if p in FacetParts(fs) && p !in FacetParts(fs[..n]) {
        assert fs[n].on && fs[n].pred == p;
      }
      if exists i :: 0 <= i < |fs| && fs[i].on && fs[i].pred == p {
        var i :| 0 <= i < |fs| && fs[i].on && fs[i].pred == p;
        if i < n {
          assert fs[..n][i] == fs[i];
        }
      }
    }
  }

  /** The fragment of a firing facet sits right after the fragments of the
      facets that fired before it: fragments keep the facets' order. */
  lemma {:induction false} FacetPartsAt(fs: seq<Facet>, i: nat)
    requires i < |fs| && fs[i].on
    ensures Fired(fs[..i]) < |FacetParts(fs)|
    ensures FacetParts(fs)[Fired(fs[..i])] == fs[i].pred
  {
    var n := |fs| - 1;
    FiredLength(fs[..n]);
    if i == n {
      FiredLength(fs[..i]);
    } else {
      assert fs[..n][..i] == fs[..i];
      assert fs[..n][i] == fs[i];
      FacetPartsAt(fs[..n], i);
    }
  }

  /** Facets fire in order: an earlier firing facet has a smaller count of
      predecessors than a later one. */
  lemma {:induction false} FiredGrows(fs: seq<Facet>, i: nat, j: nat)
    requires i < j <= |fs| && fs[i].on
    ensures Fired(fs[..i]) < Fired(fs[..j])
  {
    if j == i + 1 {
      assert fs[..j][..i] == fs[..i];
    } else {
      FiredGrows(fs, i, j - 1);
      assert fs[..j][..j - 1] == fs[..j - 1];
    }
  }

  /** The keys are the base keys plus the names of the firing facets. */
  lemma {:induction false} FacetParamsKeys(base: map<string, Value>, fs: seq<Facet>, k: string)
    ensures k in FacetParams(base, fs) <==>
            k in base || exists i :: 0 <= i < |fs| && fs[i].on && fs[i].name == k
  {
    if |fs| > 0 {
      var n := |fs| - 1;
      FacetParamsKeys(base, fs[..n], k);
      if exists i :: 0 <= i < |fs| && fs[i].on && fs[i].name == k {
        var i :| 0 <= i < |fs| && fs[i].on && fs[i].name == k;
        if i < n {
          assert fs[..n][i] == fs[i];
        }
      }
    }
  }

  /** The names of the blocks that fire. */
  function FiredNames(fs: seq<Facet>): set<string>
  {
    if |fs| == 0 then {}
    else FiredNames(fs[..|fs| - 1]) + (if fs[|fs| - 1].on then {fs[|fs| - 1].name} else {})
  }

  /** The keys are the base keys plus the names of the blocks that fire. */
  lemma {:induction false} FacetParamsKeySet(base: map<string, Value>, fs: seq<Facet>)
    ensures FacetParams(base, fs).Keys == base.Keys + FiredNames(fs)
  {
    if |fs| > 0 {
      FacetParamsKeySet(base, fs[..|fs| - 1]);
    }
  }

  /** The " AND "-joined text of a fixed first predicate and the firing
      blocks opens with that predicate, and is only that predicate exactly
      when no block fires. */
  lemma WhereOpensWith(head: Pred, fs: seq<Facet>)
    ensures var w := WhereText([head] + FacetParts(fs));
            && Render(head) <= w
            && (w == Render(head) <==> forall i :: 0 <= i < |fs| ==> !fs[i].on)
  {
    var ps := [head] + FacetParts(fs);
    WhereTextCons(ps);
    assert ps[1..] == FacetParts(fs);
    if |ps| > 1 {
      FacetPartsHas(fs, ps[1]);
      assert ps[1] in FacetParts(fs);
    } else {
      forall i | 0 <= i < |fs| ensures !fs[i].on {
        FacetPartsHas(fs, fs[i].pred);
      }
    }
  }

  /** Two chains of blocks that fire under the same conditions and bind the
      same names to the same values, whatever predicates they append. */
  predicate SameBindings(fs1: seq<Facet>, fs2: seq<Facet>)
  {
    |fs1| == |fs2| &&
    forall i :: 0 <= i < |fs1| ==>
      fs1[i].on == fs2[i].on && fs1[i].name == fs2[i].name && fs1[i].value == fs2[i].value
  }

  /** Such chains bind the same params and append as many fragments. */
  lemma {:induction false} SameBindingsAgree(base: map<string, Value>, fs1: seq<Facet>, fs2: seq<Facet>)
    requires SameBindings(fs1, fs2)
    ensures FacetParams(base, fs1) == FacetParams(base, fs2)
    ensures |FacetParts(fs1)| == |FacetParts(fs2)|
  {
    if |fs1| > 0 {
      var n := |fs1| - 1;
      assert SameBindings(fs1[..n], fs2[..n]) by {
        forall i | 0 <= i < n
          ensures fs1[..n][i].on == fs2[..n][i].on && fs1[..n][i].name == fs2[..n][i].name
                  && fs1[..n][i].value == fs2[..n][i].value
        {
          assert fs1[..n][i] == fs1[i] && fs2[..n][i] == fs2[i];
        }
      }
      SameBindingsAgree(base, fs1[..n], fs2[..n]);
    }
  }

  /** With distinct names, a firing facet's key holds its own value. */
  lemma {:induction false} FacetParamsValue(base: map<string, Value>, fs: seq<Facet>, i: nat)
    requires DistinctNames(fs)
    requires i < |fs| && fs[i].on
    ensures fs[i].name in FacetParams(base, fs)
    ensures FacetParams(base, fs)[fs[i].name] == fs[i].value
  {
    var n := |fs| - 1;
    if i < n {
      assert fs[..n][i] == fs[i];
      assert DistinctNames(fs[..n]) by {
        forall a, b | 0 <= a < b < n ensures fs[..n][a].name != fs[..n][b].name {
          assert fs[..n][a] == fs[a] && fs[..n][b] == fs[b];
        }
      }
      FacetParamsValue(base, fs[..n], i);
      assert fs[n].name != fs[i].name;
    }
  }

  /** A key no firing facet names keeps its base value. */
  lemma {:induction false} FacetParamsKeep(base: map<string, Value>, fs: seq<Facet>, k: string)
    requires k in base
    requires forall i :: 0 <= i < |fs| && fs[i].on ==> fs[i].name != k
    ensures k in FacetParams(base, fs) && FacetParams(base, fs)[k] == base[k]
  {
    if |fs| > 0 {
      var n := |fs| - 1;
      forall i | 0 <= i < n && fs[..n][i].on ensures fs[..n][i].name != k {
        assert fs[..n][i] == fs[i];
      }
      FacetParamsKeep(base, fs[..n], k);
    }
  }

  lemma {:induction false} FacetPartsBound(base: map<string, Value>, fs: seq<Facet>)
    requires SelfBound(fs)
    ensures AllBound(FacetParts(fs), FacetParams(base, fs).Keys)
  {
    if |fs| > 0 {
      var n := |fs| - 1;
      assert SelfBound(fs[..n]) by {
        forall i | 0 <= i < n ensures Names(fs[..n][i].pred) <= {fs[..n][i].name} {
          assert fs[..n][i] == fs[i];
        }
      }
      FacetPartsBound(base, fs[..n]);
      var m := FacetParams(base, fs[..n]);
      assert m.Keys <= FacetParams(base, fs).Keys;
    }
  }

  lemma BoundMono(ps: seq<Pred>, a: set<string>, b: set<string>)
    requires AllBound(ps, a) && a <= b
    ensures AllBound(ps, b)
  {
  }

  lemma {:induction false} BaseKept(base: map<string, Value>, fs: seq<Facet>)
    ensures base.Keys <= FacetParams(base, fs).Keys
  {
    if |fs| > 0 {
      BaseKept(base, fs[..|fs| - 1]);
    }
  }

  /** Every named parameter of the reference's fragments is bound, as long
      as the head and tail only use base parameters and each facet only its
      own. */
  lemma ReferenceBound(head: seq<Pred>, base: map<string, Value>, fs: seq<Facet>,
                       tail: seq<Pred>, joins: seq<string>)
    requires AllBound(head, base.Keys) && AllBound(tail, base.Keys) && SelfBound(fs)
    ensures var q := Reference(head, base, fs, tail, joins);
            AllBound(q.parts, q.params.Keys)
  {
    var q := Reference(head, base, fs, tail, joins);
    BaseKept(base, fs);
    FacetPartsBound(base, fs);
    forall i | 0 <= i < |q.parts| ensures Names(q.parts[i]) <= q.params.Keys {
      if i < |head| {
        assert q.parts[i] == head[i];
      } else if i < |head| + |FacetParts(fs)| {
        assert q.parts[i] == FacetParts(fs)[i - |head|];
      } else {
        assert q.parts[i] == tail[i - |head| - |FacetParts(fs)|];
      }
    }
  }

  /** For a builder whose facets have their own, fresh, distinct names: a
      facet's fragment is emitted iff it fires, its key is bound iff it
      fires, and then to the facet's value. */
  lemma ReferenceFacet(head: seq<Pred>, base: map<string, Value>, fs: seq<Facet>,
                       tail: seq<Pred>, joins: seq<string>, i: nat)
    requires AllBound(head, base.Keys) && AllBound(tail, base.Keys)
    requires DistinctNames(fs) && OwnNames(fs) && FreshNames(base, fs)
    requires i < |fs|
    ensures var q := Reference(head, base, fs, tail, joins);
            && (fs[i].pred in q.parts <==> fs[i].on)
            && (fs[i].name in q.params <==> fs[i].on)
            && (fs[i].on ==> q.params[fs[i].name] == fs[i].value)
  {
    var q := Reference(head, base, fs, tail, joins);
    var p, n := fs[i].pred, fs[i].name;
    assert Names(p) == {n};
    FacetPartsHas(fs, p);
    assert q.parts == head + FacetParts(fs) + tail;
    if p in FacetParts(fs) {
      var j :| 0 <= j < |fs| && fs[j].on && fs[j].pred == p;
      assert fs[j].name in Names(p);
      assert j == i;
    }
    FacetParamsKeys(base, fs, n);
    if exists j :: 0 <= j < |fs| && fs[j].on && fs[j].name == n {
      var j :| 0 <= j < |fs| && fs[j].on && fs[j].name == n;
      assert j == i;
    }
    if fs[i].on {
      FacetParamsValue(base, fs, i);
    }
  }

  /** A base parameter no facet rebinds keeps its value. */
  lemma ReferenceBase(head: seq<Pred>, base: map<string, Value>, fs: seq<Facet>,
                      tail: seq<Pred>, joins: seq<string>, k: string)
    requires FreshNames(base, fs) && k in base
    ensures var q := Reference(head, base, fs, tail, joins);
            k in q.params && q.params[k] == base[k]
  {
    FacetParamsKeep(base, fs, k);
  }

  // ---- steps of a builder's if-chain ----

  /** What one block does to the fragments and params. */
  function Step(st: Stage, x: Facet): Stage
  {
    if x.on then Stage(st.parts + [x.pred], st.params[x.name := x.value]) else st
  }

  lemma RunSnoc(st: Stage, fs: seq<Facet>, x: Facet)
    ensures Run(st, fs + [x]) == Step(Run(st, fs), x)
  {
    assert (fs + [x])[..|fs|] == fs;
  }

  /** One `if on: fragments.append(pred); params[name] = value` block of a
      builder, run after the blocks done. */
  method AddFacet(parts: seq<Pred>, params: map<string, Value>, ghost st: Stage, ghost done: seq<Facet>,
                  on: bool, pred: Pred, name: string, value: Value)
    returns (parts': seq<Pred>, params': map<string, Value>, ghost done': seq<Facet>)
    requires Stage(parts, params) == Run(st, done)
    ensures done' == done + [Facet(on, pred, name, value)]
    ensures Stage(parts', params') == Run(st, done')
  {
    parts', params' := parts, params;
    if on {
      parts' := parts' + [pred];
      params' := params'[name := value];
    }
    done' := done + [Facet(on, pred, name, value)];
    RunSnoc(st, done, Facet(on, pred, name, value));
  }

  /** `if ids: fragments.append(f"{col} = ANY(:{name})"); params[name] = ids` */
  method AddAnyFacet(parts: seq<Pred>, params: map<string, Value>, ghost st: Stage, ghost done: seq<Facet>,
                     ids: seq<int>, col: string, name: string)
    returns (parts': seq<Pred>, params': map<string, Value>, ghost done': seq<Facet>)
    requires Stage(parts, params) == Run(st, done)
    ensures done' == done + [AnyFacet(ids, col, name)]
    ensures Stage(parts', params') == Run(st, done')
  {
    parts', params', done' := AddFacet(parts, params, st, done, ids != [], AnyNamed(col, name), name, Ids(ids));
  }

  /** A builder's join list, compared as a whole. */
  datatype Joins = Joins(list: seq<string>)

  /** `if on: joins.append(join)` */
  method AddJoin(joins: seq<string>, on: bool, join: string) returns (joins': seq<string>)
    ensures Joins(joins') == Joins(joins + Opt(on, join))
  {
    joins' := joins;
    if on {
      joins' := joins' + [join];
    }
  }

  /** Appending a join under a guard that skips it when the condition
      before it has already appended it (a need_warehouse_join flag)
      deduplicates to the same list as appending it unguarded. */
  lemma GuardedJoin(pre: seq<string>, a: bool, b: bool, x: string)
    ensures Dedup(pre + Opt(a, x) + Opt(b && !a, x)) == Dedup(pre + Opt(a, x) + Opt(b, x))
  {
    if a && b {
      DedupSnoc(pre + [x], x);
      assert pre + Opt(a, x) + Opt(b && !a, x) == pre + [x];
    }
  }

  /** Lists that deduplicate alike still do after one more optional join. */
  lemma DedupExtend(p: seq<string>, q: seq<string>, c: bool, x: string)
    requires Dedup(p) == Dedup(q)
    ensures Dedup(p + Opt(c, x)) == Dedup(q + Opt(c, x))
  {
    if c {
      DedupMembers(p);
      DedupMembers(q);
      DedupSnoc(p, x);
      DedupSnoc(q, x);
    } else {
      assert p + Opt(c, x) == p && q + Opt(c, x) == q;
    }
  }

}
