/** Python's sorted() (a stable sort under a total preorder), the ordering
    of str values, and list(dict.fromkeys(xs)). */
module Sorting {

  ghost predicate Total<T(!new)>(leq: (T, T) -> bool)
  {
    forall a, b :: leq(a, b) || leq(b, a)
  }

  ghost predicate Transitive<T(!new)>(leq: (T, T) -> bool)
  {
    forall a, b, c :: leq(a, b) && leq(b, c) ==> leq(a, c)
  }

  predicate SortedBy<T>(s: seq<T>, leq: (T, T) -> bool)
  {
    forall i, j :: 0 <= i < j < |s| ==> leq(s[i], s[j])
  }

  function Insert<T(!new)>(x: T, s: seq<T>, leq: (T, T) -> bool): (r: seq<T>)
    requires Total(leq) && Transitive(leq) && SortedBy(s, leq)
    ensures SortedBy(r, leq) && multiset(r) == multiset(s) + multiset{x}
    ensures |r| == |s| + 1
  {
    if |s| == 0 then [x]
    else if leq(x, s[0]) then [x] + s
    else
      var t := Insert(x, s[1..], leq);
      assert s == [s[0]] + s[1..];
      BoundedBelow(s[0], t, s[1..], x, leq);
      [s[0]] + t
  }

  /** An element below x and below every element of u is below every
      element of a rearrangement of u with x added. */
  lemma BoundedBelow<T>(a: T, t: seq<T>, u: seq<T>, x: T, leq: (T, T) -> bool)
    requires multiset(t) == multiset(u) + multiset{x}
    requires leq(a, x) && forall k :: 0 <= k < |u| ==> leq(a, u[k])
    ensures forall k :: 0 <= k < |t| ==> leq(a, t[k])
  {
    forall k | 0 <= k < |t| ensures leq(a, t[k]) {
      assert t[k] in multiset(t);
      if t[k] != x {
        assert t[k] in multiset(u);
        var i :| 0 <= i < |u| && u[i] == t[k];
      }
    }
  }

  /** Neither sorts before the other: sorted() sees equal keys. */
  predicate Tied<T>(a: T, b: T, leq: (T, T) -> bool)
  {
    leq(a, b) && leq(b, a)
  }

  /** The elements of s whose key equals y's, in the order s has them. */
  function TiedWith<T>(s: seq<T>, y: T, leq: (T, T) -> bool): (r: seq<T>)
    ensures |r| <= |s|
    ensures forall k :: 0 <= k < |r| ==> Tied(r[k], y, leq) && r[k] in s
  {
    if |s| == 0 then []
    else (if Tied(s[0], y, leq) then [s[0]] else []) + TiedWith(s[1..], y, leq)
  }

  /** TiedWith of a sequence with one element in front. */
  lemma TiedWithCons<T>(a: T, u: seq<T>, y: T, leq: (T, T) -> bool)
    ensures TiedWith([a] + u, y, leq) == (if Tied(a, y, leq) then [a] else []) + TiedWith(u, y, leq)
  {
    assert ([a] + u)[1..] == u;
  }

  /** Two elements, one strictly below the other, are not both tied with y. */
  lemma TiedExclusive<T(!new)>(x: T, a: T, y: T, leq: (T, T) -> bool)
    requires Transitive(leq) && !leq(x, a)
    ensures !(Tied(x, y, leq) && Tied(a, y, leq))
  {
  }

  /** Insert places x after every smaller element and before every element
      whose key equals its own, so among the elements tied with any y, x
      comes first and the others keep their order. */
  lemma {:induction false} InsertTied<T(!new)>(x: T, t: seq<T>, y: T, leq: (T, T) -> bool)
    requires Total(leq) && Transitive(leq) && SortedBy(t, leq)
    ensures TiedWith(Insert(x, t, leq), y, leq) ==
              (if Tied(x, y, leq) then [x] else []) + TiedWith(t, y, leq)
  {
    if |t| == 0 {
    } else if leq(x, t[0]) {
      assert Insert(x, t, leq) == [x] + t;
      TiedWithCons(x, t, y, leq);
    } else {
      var rest := Insert(x, t[1..], leq);
      assert Insert(x, t, leq) == [t[0]] + rest;
      InsertTied(x, t[1..], y, leq);
      TiedWithCons(t[0], rest, y, leq);
      assert t == [t[0]] + t[1..];
      TiedWithCons(t[0], t[1..], y, leq);
      TiedExclusive(x, t[0], y, leq);
    }
  }

  /** sorted(s, key=...): the same elements, ascending, and stable: the
      elements with equal keys come out in the order they went in. */
  function Sort<T(!new)>(s: seq<T>, leq: (T, T) -> bool): (r: seq<T>)
    requires Total(leq) && Transitive(leq)
    ensures SortedBy(r, leq) && multiset(r) == multiset(s)
    ensures forall y :: TiedWith(r, y, leq) == TiedWith(s, y, leq)
  {
    if |s| == 0 then []
    else
      assert s == [s[0]] + s[1..];
      var t := Sort(s[1..], leq);
      assert forall y :: TiedWith(Insert(s[0], t, leq), y, leq) == TiedWith(s, y, leq) by {
        forall y ensures TiedWith(Insert(s[0], t, leq), y, leq) == TiedWith(s, y, leq) {
          InsertTied(s[0], t, y, leq);
        }
      }
      Insert(s[0], t, leq)
  }

  // ----- str comparison -----

  /** a <= b for Python str: code-point lexicographic order. */
  predicate StrLeq(a: string, b: string)
  {
    |a| == 0 || (|b| > 0 && (a[0] < b[0] || (a[0] == b[0] && StrLeq(a[1..], b[1..]))))
  }

  lemma {:induction false} StrLeqTotal(a: string, b: string)
    ensures StrLeq(a, b) || StrLeq(b, a)
  {
    if |a| > 0 && |b| > 0 && a[0] == b[0] {
      StrLeqTotal(a[1..], b[1..]);
    }
  }

  lemma {:induction false} StrLeqTransitive(a: string, b: string, c: string)
    requires StrLeq(a, b) && StrLeq(b, c)
    ensures StrLeq(a, c)
  {
    if |a| > 0 && |b| > 0 && |c| > 0 && a[0] == b[0] == c[0] {
      StrLeqTransitive(a[1..], b[1..], c[1..]);
    }
  }

  lemma {:induction false} StrLeqAntisymmetric(a: string, b: string)
    requires StrLeq(a, b) && StrLeq(b, a)
    ensures a == b
  {
    if |a| > 0 {
      StrLeqAntisymmetric(a[1..], b[1..]);
      assert a == [a[0]] + a[1..] && b == [b[0]] + b[1..];
    }
  }

  /** str ordering is a total order, so sorted() can use it. */
  lemma StrOrder()
    ensures Total((a: string, b: string) => StrLeq(a, b))
    ensures Transitive((a: string, b: string) => StrLeq(a, b))
  {
    forall a: string, b: string ensures StrLeq(a, b) || StrLeq(b, a) {
      StrLeqTotal(a, b);
    }
    forall a: string, b: string, c: string | StrLeq(a, b) && StrLeq(b, c) ensures StrLeq(a, c) {
      StrLeqTransitive(a, b, c);
    }
  }

  /** sorted() of a list of strings. */
  function SortStrings(s: seq<string>): (r: seq<string>)
    ensures multiset(r) == multiset(s)
    ensures forall i, j :: 0 <= i < j < |r| ==> StrLeq(r[i], r[j])
  {
    StrOrder();
    Sort(s, (a: string, b: string) => StrLeq(a, b))
  }

  // ----- dict.fromkeys -----

  predicate NoDup<T(==)>(s: seq<T>)
  {
    forall i, j :: 0 <= i < j < |s| ==> s[i] != s[j]
  }

  /** The first position of x in s. */
  function FirstIndex<T(==)>(s: seq<T>, x: T): (k: nat)
    requires x in s
    ensures k < |s| && s[k] == x && x !in s[..k]
  {
    if s[0] == x then 0 else 1 + FirstIndex(s[1..], x)
  }

  /** list(dict.fromkeys(s)): first occurrences, in order. */
  function Dedup<T(==)>(s: seq<T>): (r: seq<T>)
  {
    if |s| == 0 then []
    else
      var p := Dedup(s[..|s| - 1]);
      if s[|s| - 1] in p then p else p + [s[|s| - 1]]
  }

  /** Dedup keeps every value once and drops none. */
  lemma {:induction false} DedupMembers<T>(s: seq<T>)
    ensures NoDup(Dedup(s))
    ensures forall x :: x in Dedup(s) <==> x in s
  {
    if |s| > 0 {
      var init := s[..|s| - 1];
      DedupMembers(init);
      assert s == init + [s[|s| - 1]];
    }
  }

  /** Appending a non-empty sequence is appending its front, then its last value. */
  lemma AppendSnoc<T>(a: seq<T>, ts: seq<T>)
    requires |ts| > 0
    ensures a + ts == (a + ts[..|ts| - 1]) + [ts[|ts| - 1]]
  {
    var r := (a + ts[..|ts| - 1]) + [ts[|ts| - 1]];
    forall i | 0 <= i < |r| ensures (a + ts)[i] == r[i] {
      if i >= |a| && i < |r| - 1 {
        assert r[i] == ts[..|ts| - 1][i - |a|];
      }
    }
  }

  /** The values whose flag is set, in order. */
  function Pick<T>(xs: seq<T>, keep: seq<bool>): (r: seq<T>)
    requires |keep| == |xs|
    ensures |r| <= |xs|
  {
    if |xs| == 0 then []
    else
      var n := |xs| - 1;
      Pick(xs[..n], keep[..n]) + (if keep[n] then [xs[n]] else [])
  }

  lemma {:induction false} PickHas<T>(xs: seq<T>, keep: seq<bool>, x: T)
    requires |keep| == |xs|
    ensures x in Pick(xs, keep) <==> exists i :: 0 <= i < |xs| && keep[i] && xs[i] == x
  {
    if |xs| > 0 {
      var n := |xs| - 1;
      PickHas(xs[..n], keep[..n], x);
      if x in Pick(xs[..n], keep[..n]) {
        var i :| 0 <= i < n && keep[..n][i] && xs[..n][i] == x;
        assert keep[i] && xs[i] == x;
      }
      if exists i :: 0 <= i < |xs| && keep[i] && xs[i] == x {
        var i :| 0 <= i < |xs| && keep[i] && xs[i] == x;
        if i < n {
          assert keep[..n][i] && xs[..n][i] == x;
        }
      }
    }
  }

  lemma PickSnoc<T>(xs: seq<T>, keep: seq<bool>, x: T, b: bool)
    requires |keep| == |xs|
    ensures Pick(xs + [x], keep + [b]) == Pick(xs, keep) + (if b then [x] else [])
  {
    assert (xs + [x])[..|xs|] == xs;
    assert (keep + [b])[..|keep|] == keep;
  }

  /** One more value: kept at the end only if it is new. */
  lemma DedupSnoc<T>(s: seq<T>, x: T)
    ensures Dedup(s + [x]) == if x in s then Dedup(s) else Dedup(s) + [x]
  {
    assert (s + [x])[..|s|] == s;
    DedupMembers(s);
  }

  /** Dedup keeps values in the order of their first occurrence. */
  lemma {:induction false} DedupOrder<T>(s: seq<T>)
    ensures forall x :: x in Dedup(s) ==> x in s
    ensures forall i, j :: 0 <= i < j < |Dedup(s)| ==>
              FirstIndex(s, Dedup(s)[i]) < FirstIndex(s, Dedup(s)[j])
  {
    DedupMembers(s);
    if |s| > 0 {
      var init := s[..|s| - 1];
      var last := s[|s| - 1];
      DedupOrder(init);
      DedupMembers(init);
      var p := Dedup(init);
      forall x | x in init ensures FirstIndex(s, x) == FirstIndex(init, x) {
        FirstIndexPrefix(init, s, x);
      }
      if last !in p {
        FirstIndexLast(s);
        var r := Dedup(s);
        assert r == p + [last];
        forall i, j | 0 <= i < j < |r| ensures FirstIndex(s, r[i]) < FirstIndex(s, r[j]) {
          if j == |p| {
            assert r[i] == p[i] && p[i] in init;
          } else {
            assert r[i] == p[i] && r[j] == p[j];
          }
        }
      }
    }
  }

  lemma {:induction false} FirstIndexPrefix<T>(init: seq<T>, s: seq<T>, x: T)
    requires |init| <= |s| && x in init && init == s[..|init|]
    ensures x in s && FirstIndex(s, x) == FirstIndex(init, x)
  {
    assert s[0] == init[0];
    if init[0] != x {
      assert init[1..] == s[1..][..|init| - 1];
      FirstIndexPrefix(init[1..], s[1..], x);
    }
  }

  lemma FirstIndexLast<T>(s: seq<T>)
    requires |s| > 0 && s[|s| - 1] !in s[..|s| - 1]
    ensures FirstIndex(s, s[|s| - 1]) == |s| - 1
  {
  }

  /** A list without repeats comes back unchanged. */
  lemma {:induction false} DedupNoDup<T>(s: seq<T>)
    requires NoDup(s)
    ensures Dedup(s) == s
  {
    if |s| > 0 {
      var init := s[..|s| - 1];
      DedupNoDup(init);
      assert s == init + [s[|s| - 1]];
    }
  }

  /** A list without repeats holds each value at most once. */
  lemma {:induction false} NoDupCount<T>(s: seq<T>, x: T)
    requires NoDup(s)
    ensures multiset(s)[x] <= 1
  {
    if |s| > 0 {
      var n := |s| - 1;
      NoDupCount(s[..n], x);
      assert s == s[..n] + [s[n]];
      if s[n] == x {
        assert x !in multiset(s[..n]);
      }
    }
  }

  lemma RepeatCount<T>(s: seq<T>, i: nat, j: nat)
    requires i < j < |s| && s[i] == s[j]
    ensures multiset(s)[s[i]] >= 2
  {
    assert s == s[..j] + [s[j]] + s[j + 1..];
    assert s[..j][i] == s[i];
    assert s[i] in multiset(s[..j]);
  }

  /** Reordering a list without repeats gives a list without repeats. */
  lemma PermutationNoDup<T>(a: seq<T>, b: seq<T>)
    requires NoDup(a) && multiset(a) == multiset(b)
    ensures NoDup(b)
  {
    forall i, j | 0 <= i < j < |b| ensures b[i] != b[j] {
      if b[i] == b[j] {
        RepeatCount(b, i, j);
        NoDupCount(a, b[i]);
      }
    }
  }

  lemma DedupIdempotent<T>(s: seq<T>)
    ensures Dedup(Dedup(s)) == Dedup(s)
  {
    DedupMembers(s);
    DedupNoDup(Dedup(s));
  }
}
