/** write_aggregated_sheet (app/sales_report/utils/export_helper.py): the
    period sheet of the sales export. */
module AggregatedSheet {
  import opened Wrappers
  import opened Sorting
  import opened Pivot
  import opened ExportPeriods

  /** The header texts of the period columns; the first label that is not
      a well-formed range makes the list comprehension raise. */
  function PrettyPeriods(periods: seq<string>): (r: Result<seq<string>>)
    ensures r.Ok? <==> forall k :: 0 <= k < |periods| ==> FormatWeekDisplay(periods[k]).Ok?
    ensures r.Err? ==> r.failure == ValueError
    ensures r.Ok? ==> |r.value| == |periods| &&
                      forall k :: 0 <= k < |periods| ==> r.value[k] == FormatWeekDisplay(periods[k]).value
  {
    MapAll(FormatWeekDisplay, periods)
  }

  function Titles(pretty: seq<string>): seq<string>
  {
    ["Item Code", "Item Name", "Material Category"] + pretty + ["Total"]
  }

  function ItemRowOf(e: Entry<string>, periods: seq<string>): Row
  {
    ItemRow(e.key.id, e.key.name, e.key.category, RowValues(e.cells, periods), RowTotal(e.cells, periods))
  }

  function ItemRows(sorted: seq<Entry<string>>, periods: seq<string>): seq<Row>
  {
    if |sorted| == 0 then []
    else ItemRows(sorted[..|sorted| - 1], periods) + [ItemRowOf(sorted[|sorted| - 1], periods)]
  }

  function CategoryRowOf(items: seq<Entry<string>>, cat: string, periods: seq<string>): Row
  {
    CategoryRow(cat, CategoryValues(items, cat, periods), CategoryTotal(items, cat, periods))
  }

  function CategoryRows(items: seq<Entry<string>>, cats: seq<string>, periods: seq<string>): seq<Row>
  {
    if |cats| == 0 then []
    else CategoryRows(items, cats[..|cats| - 1], periods) + [CategoryRowOf(items, cats[|cats| - 1], periods)]
  }

  /** The sheet as laid out: header, item rows by (category, name, id),
      a blank row, one subtotal row per category in first-seen order, and
      the grand-total row. */
  function Sheet(items: seq<Entry<string>>, periods: seq<string>, pretty: seq<string>): seq<Row>
  {
    [Header(Titles(pretty))] + ItemRows(SortItems(items), periods) + [BlankRow]
    + CategoryRows(items, Categories(items), periods)
    + [TotalRow(ColumnValues(items, periods), GrandTotal(items, periods))]
  }

  /** The item rows: one per sorted item, cells then total. */
  method WriteItemRows(sorted: seq<Entry<string>>, periods: seq<string>) returns (rows: seq<Row>)
    ensures rows == ItemRows(sorted, periods)
  {
    rows := [];
    var i := 0;
    while i < |sorted|
      invariant 0 <= i <= |sorted|
      invariant rows == ItemRows(sorted[..i], periods)
    {
      var values, total := RowOf(sorted[i].cells, periods);
      assert sorted[..i + 1][..i] == sorted[..i];
      rows := rows + [ItemRow(sorted[i].key.id, sorted[i].key.name, sorted[i].key.category, values, total)];
      i := i + 1;
    }
    assert sorted[..i] == sorted;
  }

  /** cat_totals: a defaultdict filled in item order, so its keys come in
      first-seen order and each holds the category's column sums. */
  method CategoryTotals(items: seq<Entry<string>>, periods: seq<string>)
    returns (catOrder: seq<string>, catTotals: map<string, seq<real>>)
    ensures catOrder == Categories(items)
    ensures forall c :: c in catTotals <==> c in catOrder
    ensures forall c :: c in catTotals ==> catTotals[c] == CategoryValues(items, c, periods)
  {
    catOrder := [];
    catTotals := map[];
    var i := 0;
    while i < |items|
      invariant 0 <= i <= |items|
      invariant catOrder == Categories(items[..i])
      invariant forall c :: c in catTotals <==> c in catOrder
      invariant forall c :: c in catTotals ==> catTotals[c] == CategoryValues(items[..i], c, periods)
    {
      var e := items[i];
      var cat := e.key.category;
      CategoriesStep(items, i);
      if cat !in catTotals {
        NewCategoryZeros(items[..i], cat, periods);
        catOrder := catOrder + [cat];
        catTotals := catTotals[cat := Zeros(|periods|)];
      }
      var acc := AddCells(catTotals[cat], e.cells, periods);
      CategoryValuesStep(items, i, periods, acc);
      forall c | c in catTotals && c != cat
        ensures CategoryValues(items[..i + 1], c, periods) == CategoryValues(items[..i], c, periods)
      {
        OtherCategoryUnchanged(items, i, periods, c);
      }
      catTotals := catTotals[cat := acc];
      i := i + 1;
    }
    assert items[..i] == items;
  }

  lemma NewCategoryZeros(items: seq<Entry<string>>, cat: string, periods: seq<string>)
    requires cat !in Categories(items)
    ensures CategoryValues(items, cat, periods) == Zeros(|periods|)
  {
    DedupMembers(CategoryList(items));
    forall k | 0 <= k < |periods| ensures CategoryColumn(items, cat, periods[k]) == 0.0 {
      CategoryColumnAbsent(items, cat, periods[k]);
    }
  }

  lemma CategoryValuesStep(items: seq<Entry<string>>, i: nat, periods: seq<string>, acc: seq<real>)
    requires i < |items| && |acc| == |periods|
    requires forall k :: 0 <= k < |periods| ==>
               acc[k] == CategoryValues(items[..i], items[i].key.category, periods)[k] + Cell(items[i].cells, periods[k])
    ensures acc == CategoryValues(items[..i + 1], items[i].key.category, periods)
  {
    forall k | 0 <= k < |periods|
      ensures acc[k] == CategoryValues(items[..i + 1], items[i].key.category, periods)[k]
    {
      CategoryColumnStep(items, i, items[i].key.category, periods[k]);
    }
  }

  lemma OtherCategoryUnchanged(items: seq<Entry<string>>, i: nat, periods: seq<string>, c: string)
    requires i < |items| && c != items[i].key.category
    ensures CategoryValues(items[..i + 1], c, periods) == CategoryValues(items[..i], c, periods)
  {
    forall k | 0 <= k < |periods|
      ensures CategoryColumn(items[..i + 1], c, periods[k]) == CategoryColumn(items[..i], c, periods[k])
    {
      CategoryColumnStep(items, i, c, periods[k]);
    }
  }

  /** One subtotal row per category, its total summed alongside. */
  method WriteCategoryRows(items: seq<Entry<string>>, periods: seq<string>,
                           catOrder: seq<string>, catTotals: map<string, seq<real>>)
    returns (rows: seq<Row>)
    requires forall c :: c in catOrder ==> c in catTotals && catTotals[c] == CategoryValues(items, c, periods)
    ensures rows == CategoryRows(items, catOrder, periods)
  {
    rows := [];
    var j := 0;
    while j < |catOrder|
      invariant 0 <= j <= |catOrder|
      invariant rows == CategoryRows(items, catOrder[..j], periods)
    {
      var cat := catOrder[j];
      var total := SumLoop(catTotals[cat]);
      assert catOrder[..j + 1][..j] == catOrder[..j];
      rows := rows + [CategoryRow(cat, catTotals[cat], total)];
      j := j + 1;
    }
    assert catOrder[..j] == catOrder;
  }

  /** grand_totals: every column summed over all items. */
  method GrandTotals(items: seq<Entry<string>>, periods: seq<string>) returns (grand: seq<real>)
    ensures grand == ColumnValues(items, periods)
  {
    grand := Zeros(|periods|);
    var i := 0;
    while i < |items|
      invariant 0 <= i <= |items|
      invariant grand == ColumnValues(items[..i], periods)
    {
      grand := AddCells(grand, items[i].cells, periods);
      forall k | 0 <= k < |periods|
        ensures ColumnTotal(items[..i + 1], periods[k]) == ColumnTotal(items[..i], periods[k]) + Cell(items[i].cells, periods[k])
      {
        ColumnTotalStep(items, i, periods[k]);
      }
      i := i + 1;
    }
    assert items[..i] == items;
  }

  /** Writes the period sheet row by row. The period labels are distinct
      (they are the keys of a dict). */
  method WriteAggregatedSheet(items: seq<Entry<string>>, periods: seq<string>) returns (r: Result<seq<Row>>)
    requires NoDup(periods)
    ensures r.Ok? <==> forall k :: 0 <= k < |periods| ==> FormatWeekDisplay(periods[k]).Ok?
    ensures r.Err? ==> r.failure == ValueError
    ensures r.Ok? ==> r.value == Sheet(items, periods, PrettyPeriods(periods).value)
  {
    var pretty := PrettyPeriods(periods);
    if pretty.Err? {
      return Err(ValueError);
    }
    var itemRows := WriteItemRows(SortItems(items), periods);
    var catOrder, catTotals := CategoryTotals(items, periods);
    var catRows := WriteCategoryRows(items, periods, catOrder, catTotals);
    var grand := GrandTotals(items, periods);
    var grandTotal := SumLoop(grand);
    return Ok([Header(Titles(pretty.value))] + itemRows + [BlankRow] + catRows + [TotalRow(grand, grandTotal)]);
  }

  /** The item rows are the items, each once, in (category, name, id)
      order. */
  lemma ItemRowsOrdered(items: seq<Entry<string>>, periods: seq<string>)
    ensures var rows := ItemRows(SortItems(items), periods);
            |rows| == |items| &&
            (forall i :: 0 <= i < |rows| ==> rows[i] == ItemRowOf(SortItems(items)[i], periods)) &&
            forall i, j :: 0 <= i < j < |rows| ==>
              KeyLeq(ItemKey(rows[i].id, rows[i].name, rows[i].category), ItemKey(rows[j].id, rows[j].name, rows[j].category))
  {
    var s := SortItems(items);
    assert |s| == |items| by {
      assert |multiset(s)| == |multiset(items)|;
    }
    ItemRowsIndex(s, periods);
  }

  lemma {:induction false} ItemRowsIndex(s: seq<Entry<string>>, periods: seq<string>)
    ensures |ItemRows(s, periods)| == |s|
    ensures forall i :: 0 <= i < |s| ==> ItemRows(s, periods)[i] == ItemRowOf(s[i], periods)
  {
    if |s| > 0 {
      ItemRowsIndex(s[..|s| - 1], periods);
    }
  }

  lemma {:induction false} CategoryRowsIndex(items: seq<Entry<string>>, cats: seq<string>, periods: seq<string>)
    ensures |CategoryRows(items, cats, periods)| == |cats|
    ensures forall j :: 0 <= j < |cats| ==> CategoryRows(items, cats, periods)[j] == CategoryRowOf(items, cats[j], periods)
  {
    if |cats| > 0 {
      CategoryRowsIndex(items, cats[..|cats| - 1], periods);
    }
  }

  /** In the written sheet the category subtotal rows add up to the total
      row, and so do the item rows. */
  lemma SheetTotalsAgree(items: seq<Entry<string>>, periods: seq<string>, pretty: seq<string>)
    ensures var rows := Sheet(items, periods, pretty);
            var cats := Categories(items);
            var last := rows[|rows| - 1];
            last.TotalRow? &&
            last.total == SumOfCategoryTotals(items, cats, periods) &&
            last.total == SumOfRowTotals(items, periods) &&
            forall k :: 0 <= k < |periods| ==> last.values[k] == SumOverCategories(items, cats, periods[k])
  {
    GrandTotalIsSumOfCategoryTotals(items, periods);
    GrandTotalIsSumOfRowTotals(items, periods);
    forall k | 0 <= k < |periods| ensures ColumnTotal(items, periods[k]) == SumOverCategories(items, Categories(items), periods[k]) {
      CategoriesPartitionColumn(items, periods[k]);
    }
  }
}
