/** The item pivots the xlsx exports write: one value per (item, column),
    a total per item row, one subtotal row per material category and a
    grand-total row. Columns are period labels in the period sheets and
    entity ids in the default view of the sales export. */
module Pivot {
  import opened Sorting

  /** The (item id, "code - name", category) key of an item row. */
  datatype ItemKey = ItemKey(id: int, name: string, category: string)

  /** One item and its value per column; a missing column reads as 0.0. */
  datatype Entry<C> = Entry(key: ItemKey, cells: map<C, real>)

  /** A sheet row as written cell by cell. */
  datatype Row =
    | Header(titles: seq<string>)
    | ItemRow(id: int, name: string, category: string, values: seq<real>, total: real)
    | BlankRow
    | CategoryRow(category: string, values: seq<real>, total: real)
    | TotalRow(values: seq<real>, total: real)

  /** per_map.get(column, 0.0) */
  function Cell<C>(cells: map<C, real>, c: C): real
  {
    if c in cells then cells[c] else 0.0
  }

  /** Python's sum() over a list of floats, added left to right. */
  function Sum(xs: seq<real>): real
  {
    if |xs| == 0 then 0.0 else Sum(xs[..|xs| - 1]) + xs[|xs| - 1]
  }

  lemma SumSnoc(xs: seq<real>, x: real)
    ensures Sum(xs + [x]) == Sum(xs) + x
  {
    assert (xs + [x])[..|xs|] == xs;
  }

  function Zeros(n: nat): seq<real>
  {
    seq(n, _ => 0.0)
  }

  function RowValues<C>(cells: map<C, real>, cols: seq<C>): seq<real>
  {
    seq(|cols|, k requires 0 <= k < |cols| => Cell(cells, cols[k]))
  }

  function RowTotal<C>(cells: map<C, real>, cols: seq<C>): real
  {
    Sum(RowValues(cells, cols))
  }

  /** A column summed over all items. */
  function ColumnTotal<C>(items: seq<Entry<C>>, c: C): real
  {
    if |items| == 0 then 0.0
    else ColumnTotal(items[..|items| - 1], c) + Cell(items[|items| - 1].cells, c)
  }

  /** A column summed over the items of one category. */
  function CategoryColumn<C>(items: seq<Entry<C>>, cat: string, c: C): real
  {
    if |items| == 0 then 0.0
    else
      var e := items[|items| - 1];
      CategoryColumn(items[..|items| - 1], cat, c) + (if e.key.category == cat then Cell(e.cells, c) else 0.0)
  }

  function ColumnValues<C>(items: seq<Entry<C>>, cols: seq<C>): seq<real>
  {
    seq(|cols|, k requires 0 <= k < |cols| => ColumnTotal(items, cols[k]))
  }

  function GrandTotal<C>(items: seq<Entry<C>>, cols: seq<C>): real
  {
    Sum(ColumnValues(items, cols))
  }

  function CategoryValues<C>(items: seq<Entry<C>>, cat: string, cols: seq<C>): seq<real>
  {
    seq(|cols|, k requires 0 <= k < |cols| => CategoryColumn(items, cat, cols[k]))
  }

  function CategoryTotal<C>(items: seq<Entry<C>>, cat: string, cols: seq<C>): real
  {
    Sum(CategoryValues(items, cat, cols))
  }

  function CategoryList<C>(items: seq<Entry<C>>): seq<string>
  {
    seq(|items|, i requires 0 <= i < |items| => items[i].key.category)
  }

  /** The categories in the order a defaultdict first meets them. */
  function Categories<C>(items: seq<Entry<C>>): seq<string>
  {
    Dedup(CategoryList(items))
  }

  function SumOfRowTotals<C>(items: seq<Entry<C>>, cols: seq<C>): real
  {
    if |items| == 0 then 0.0
    else SumOfRowTotals(items[..|items| - 1], cols) + RowTotal(items[|items| - 1].cells, cols)
  }

  function SumOverCategories<C>(items: seq<Entry<C>>, cats: seq<string>, c: C): real
  {
    if |cats| == 0 then 0.0
    else SumOverCategories(items, cats[..|cats| - 1], c) + CategoryColumn(items, cats[|cats| - 1], c)
  }

  function SumOfCategoryTotals<C>(items: seq<Entry<C>>, cats: seq<string>, cols: seq<C>): real
  {
    if |cats| == 0 then 0.0
    else SumOfCategoryTotals(items, cats[..|cats| - 1], cols) + CategoryTotal(items, cats[|cats| - 1], cols)
  }

  // ----- running sums -----

  /** The `+=` loop over the columns: adds one item's cells to a row of
      accumulators. */
  method AddCells<C>(acc: seq<real>, cells: map<C, real>, cols: seq<C>) returns (r: seq<real>)
    requires |acc| == |cols|
    ensures |r| == |cols|
    ensures forall k :: 0 <= k < |cols| ==> r[k] == acc[k] + Cell(cells, cols[k])
  {
    r := [];
    var k := 0;
    while k < |cols|
      invariant 0 <= k <= |cols| && |r| == k
      invariant forall t :: 0 <= t < k ==> r[t] == acc[t] + Cell(cells, cols[t])
    {
      r := r + [acc[k] + Cell(cells, cols[k])];
      k := k + 1;
    }
  }

  /** A `total += v` loop. */
  method SumLoop(xs: seq<real>) returns (t: real)
    ensures t == Sum(xs)
  {
    t := 0.0;
    var k := 0;
    while k < |xs|
      invariant 0 <= k <= |xs| && t == Sum(xs[..k])
    {
      assert xs[..k + 1][..k] == xs[..k];
      t := t + xs[k];
      k := k + 1;
    }
    assert xs[..k] == xs;
  }

  /** One item row: its cells and, summed alongside, its total. */
  method RowOf<C>(cells: map<C, real>, cols: seq<C>) returns (values: seq<real>, total: real)
    ensures values == RowValues(cells, cols) && total == RowTotal(cells, cols)
  {
    values := [];
    total := 0.0;
    var k := 0;
    while k < |cols|
      invariant 0 <= k <= |cols|
      invariant values == RowValues(cells, cols[..k]) && total == Sum(values)
    {
      var v := Cell(cells, cols[k]);
      assert (values + [v])[..k] == values;
      values := values + [v];
      total := total + v;
      k := k + 1;
    }
    assert cols[..k] == cols;
  }

  // ----- the totals add up -----

  lemma {:induction false} SumAdd(a: seq<real>, b: seq<real>, c: seq<real>)
    requires |a| == |b| == |c|
    requires forall k :: 0 <= k < |c| ==> c[k] == a[k] + b[k]
    ensures Sum(c) == Sum(a) + Sum(b)
  {
    if |c| > 0 {
      var n := |c| - 1;
      SumAdd(a[..n], b[..n], c[..n]);
    }
  }

  lemma ColumnTotalStep<C>(items: seq<Entry<C>>, i: nat, c: C)
    requires i < |items|
    ensures ColumnTotal(items[..i + 1], c) == ColumnTotal(items[..i], c) + Cell(items[i].cells, c)
  {
    assert items[..i + 1][..i] == items[..i];
  }

  lemma CategoryColumnStep<C>(items: seq<Entry<C>>, i: nat, cat: string, c: C)
    requires i < |items|
    ensures CategoryColumn(items[..i + 1], cat, c) ==
            CategoryColumn(items[..i], cat, c) + (if items[i].key.category == cat then Cell(items[i].cells, c) else 0.0)
  {
    assert items[..i + 1][..i] == items[..i];
  }

  /** A category no item carries has an all-zero column. */
  lemma {:induction false} CategoryColumnAbsent<C>(items: seq<Entry<C>>, cat: string, c: C)
    requires cat !in CategoryList(items)
    ensures CategoryColumn(items, cat, c) == 0.0
  {
    if |items| > 0 {
      var n := |items| - 1;
      assert CategoryList(items[..n]) == CategoryList(items)[..n];
      assert CategoryList(items)[n] == items[n].key.category;
      CategoryColumnAbsent(items[..n], cat, c);
    }
  }

  /** The categories of a longer list: the old ones, then the new item's
      category if it is new. */
  lemma CategoriesStep<C>(items: seq<Entry<C>>, i: nat)
    requires i < |items|
    ensures var old_ := Categories(items[..i]);
            var cat := items[i].key.category;
            Categories(items[..i + 1]) == if cat in old_ then old_ else old_ + [cat]
    ensures items[i].key.category in Categories(items[..i + 1])
  {
    var l := CategoryList(items[..i + 1]);
    assert l[..i] == CategoryList(items[..i]);
    assert l[i] == items[i].key.category;
    DedupMembers(l);
  }

  /** Adding one item to a list of distinct categories adds its cells
      exactly once, and only if its category is listed. */
  lemma {:induction false} SumOverCategoriesStep<C>(items: seq<Entry<C>>, cats: seq<string>, c: C)
    requires |items| > 0 && NoDup(cats)
    ensures var e := items[|items| - 1];
            SumOverCategories(items, cats, c) ==
            SumOverCategories(items[..|items| - 1], cats, c) + (if e.key.category in cats then Cell(e.cells, c) else 0.0)
  {
    if |cats| > 0 {
      var m := |cats| - 1;
      assert NoDup(cats[..m]);
      SumOverCategoriesStep(items, cats[..m], c);
      assert cats == cats[..m] + [cats[m]];
      assert items[|items| - 1].key.category in cats <==>
             items[|items| - 1].key.category in cats[..m] || items[|items| - 1].key.category == cats[m];
    }
  }

  lemma {:induction false} NoItemsCategorySums<C>(items: seq<Entry<C>>, cats: seq<string>, c: C)
    requires |items| == 0
    ensures SumOverCategories(items, cats, c) == 0.0
  {
    if |cats| > 0 {
      NoItemsCategorySums(items, cats[..|cats| - 1], c);
    }
  }

  /** Any list of distinct categories that covers every item's category
      (the sorted one, say) partitions each column. */
  lemma {:induction false} CoveringCategoriesPartitionColumn<C>(items: seq<Entry<C>>, cats: seq<string>, c: C)
    requires NoDup(cats)
    requires forall i :: 0 <= i < |items| ==> items[i].key.category in cats
    ensures SumOverCategories(items, cats, c) == ColumnTotal(items, c)
  {
    if |items| == 0 {
      NoItemsCategorySums(items, cats, c);
    } else {
      var n := |items| - 1;
      assert forall i :: 0 <= i < n ==> items[..n][i] == items[i];
      CoveringCategoriesPartitionColumn(items[..n], cats, c);
      SumOverCategoriesStep(items, cats, c);
    }
  }

  /** Every column's category subtotals add up to the column's total. */
  lemma CategoriesPartitionColumn<C>(items: seq<Entry<C>>, c: C)
    ensures SumOverCategories(items, Categories(items), c) == ColumnTotal(items, c)
  {
    var l := CategoryList(items);
    DedupMembers(l);
    forall i | 0 <= i < |items| ensures items[i].key.category in Categories(items) {
      assert l[i] == items[i].key.category;
    }
    CoveringCategoriesPartitionColumn(items, Categories(items), c);
  }

  /** The grand total equals the sum of the item row totals. */
  lemma {:induction false} GrandTotalIsSumOfRowTotals<C>(items: seq<Entry<C>>, cols: seq<C>)
    ensures GrandTotal(items, cols) == SumOfRowTotals(items, cols)
  {
    if |items| == 0 {
      ZeroSum(ColumnValues(items, cols));
    } else {
      var n := |items| - 1;
      GrandTotalIsSumOfRowTotals(items[..n], cols);
      forall k | 0 <= k < |cols|
        ensures ColumnValues(items, cols)[k] == ColumnValues(items[..n], cols)[k] + RowValues(items[n].cells, cols)[k]
      {
        assert items[..n + 1] == items;
        ColumnTotalStep(items, n, cols[k]);
      }
      SumAdd(ColumnValues(items[..n], cols), RowValues(items[n].cells, cols), ColumnValues(items, cols));
    }
  }

  lemma {:induction false} ZeroSum(xs: seq<real>)
    requires forall k :: 0 <= k < |xs| ==> xs[k] == 0.0
    ensures Sum(xs) == 0.0
  {
    if |xs| > 0 {
      ZeroSum(xs[..|xs| - 1]);
    }
  }

  /** Summing the category rows first and the columns second gives the
      same as the other way round. */
  lemma {:induction false} SwapCategorySums<C>(items: seq<Entry<C>>, cats: seq<string>, cols: seq<C>)
    ensures SumOfCategoryTotals(items, cats, cols) ==
            Sum(seq(|cols|, k requires 0 <= k < |cols| => SumOverCategories(items, cats, cols[k])))
  {
    var s := seq(|cols|, k requires 0 <= k < |cols| => SumOverCategories(items, cats, cols[k]));
    if |cats| == 0 {
      ZeroSum(s);
    } else {
      var m := |cats| - 1;
      SwapCategorySums(items, cats[..m], cols);
      var s0 := seq(|cols|, k requires 0 <= k < |cols| => SumOverCategories(items, cats[..m], cols[k]));
      SumAdd(s0, CategoryValues(items, cats[m], cols), s);
    }
  }

  /** The category rows add up to the grand total. */
  lemma GrandTotalIsSumOfCategoryTotals<C>(items: seq<Entry<C>>, cols: seq<C>)
    ensures GrandTotal(items, cols) == SumOfCategoryTotals(items, Categories(items), cols)
  {
    SwapCategorySums(items, Categories(items), cols);
    forall k | 0 <= k < |cols|
      ensures SumOverCategories(items, Categories(items), cols[k]) == ColumnTotal(items, cols[k])
    {
      CategoriesPartitionColumn(items, cols[k]);
    }
    assert seq(|cols|, k requires 0 <= k < |cols| => SumOverCategories(items, Categories(items), cols[k]))
        == ColumnValues(items, cols);
  }

  // ----- row order -----

  predicate StrLess(a: string, b: string)
  {
    StrLeq(a, b) && a != b
  }

  /** The tuple order (category, name, id) the period sheets sort by. */
  predicate KeyLeq(x: ItemKey, y: ItemKey)
  {
    StrLess(x.category, y.category) ||
    (x.category == y.category && (StrLess(x.name, y.name) || (x.name == y.name && x.id <= y.id)))
  }

  lemma StrLessStep(a: string, b: string, c: string)
    requires StrLeq(a, b) && StrLeq(b, c) && (StrLess(a, b) || StrLess(b, c))
    ensures StrLess(a, c)
  {
    StrLeqTransitive(a, b, c);
    if a == c {
      StrLeqAntisymmetric(a, b);
    }
  }

  lemma StrLeqReflexive(a: string)
    ensures StrLeq(a, a)
  {
  }

  lemma KeyLeqTotal(x: ItemKey, y: ItemKey)
    ensures KeyLeq(x, y) || KeyLeq(y, x)
  {
    StrLeqTotal(x.category, y.category);
    StrLeqTotal(x.name, y.name);
  }

  lemma KeyLeqTransitive(x: ItemKey, y: ItemKey, z: ItemKey)
    requires KeyLeq(x, y) && KeyLeq(y, z)
    ensures KeyLeq(x, z)
  {
    StrLeqReflexive(y.category);
    StrLeqReflexive(y.name);
    if StrLess(x.category, y.category) || StrLess(y.category, z.category) {
      StrLessStep(x.category, y.category, z.category);
    } else if StrLess(x.name, y.name) || StrLess(y.name, z.name) {
      StrLessStep(x.name, y.name, z.name);
    }
  }

  /** The key order is a total preorder on entries, so sorted() applies. */
  lemma EntryOrder<C(!new)>()
    ensures Total((a: Entry<C>, b: Entry<C>) => KeyLeq(a.key, b.key))
    ensures Transitive((a: Entry<C>, b: Entry<C>) => KeyLeq(a.key, b.key))
  {
    forall a: Entry<C>, b: Entry<C> ensures KeyLeq(a.key, b.key) || KeyLeq(b.key, a.key) {
      KeyLeqTotal(a.key, b.key);
    }
    forall a: Entry<C>, b: Entry<C>, c: Entry<C> | KeyLeq(a.key, b.key) && KeyLeq(b.key, c.key)
      ensures KeyLeq(a.key, c.key)
    {
      KeyLeqTransitive(a.key, b.key, c.key);
    }
  }

  /** sorted(map_items.items(), key=(category, name, id)). */
  function SortItems<C(!new)>(items: seq<Entry<C>>): (r: seq<Entry<C>>)
    ensures multiset(r) == multiset(items)
    ensures forall i, j :: 0 <= i < j < |r| ==> KeyLeq(r[i].key, r[j].key)
  {
    EntryOrder<C>();
    Sort(items, (a: Entry<C>, b: Entry<C>) => KeyLeq(a.key, b.key))
  }
}
