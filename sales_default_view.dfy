/** The default view of the sales export (sales_report/routes/export_xlsx.py,
    the `is_default_view` branch): one row per item with a column per
    entity of the lowest selected level, the category subtotals in sorted
    order, and a grand-total row. */
module SalesDefaultView {
  import opened Wrappers
  import opened Sorting
  import opened Pivot
  import opened PivotFold
  import opened Hierarchy
  import opened SalesExportRows

  // ----- which column holds a row's entity -----

  /** The id columns the report query groups by at each level. */
  function SelectedIdColumns(deep: Level): set<string>
  {
    match deep
    case Warehouse => {"warehouse_id"}
    case RouteSalesman => {"route_id", "salesman_id"}
    case Region => {"region_id"}
    case Area => {"area_id"}
    case CustomerChannel => {"channel_id"}
    case CustomerCategory => {"customer_category_id"}
    case Customer => {"customer_id"}
    case _ => {"company_id"}
  }

  /** The column the route reads a row's entity from: entity_type + "_id". */
  function DefaultColumnAsWritten(l: Level): string
  {
    LevelName(l) + "_id"
  }

  /** The column that holds the entity's id in the rows: "channel_id" for
      the customer channel level, entity_type + "_id" otherwise. */
  function DefaultColumn(l: Level): string
  {
    if l == CustomerChannel then "channel_id" else LevelName(l) + "_id"
  }

  /** The default level's id column is always among the columns the
      query selects, whichever lists the request fills. */
  lemma DefaultColumnIsSelected(p: Selection)
    ensures DefaultColumn(DefaultLevel(p)) in SelectedIdColumns(GetDeepest(p))
  {
    DefaultLevelChain(p);
    var l := DefaultLevel(p);
    if l == CustomerChannel {
      assert DefaultColumn(l) == "channel_id";
    } else {
      assert DefaultColumn(l) == LevelName(l) + "_id";
      match l
      case Customer => assert DefaultColumn(l) == "customer_id";
      case CustomerCategory => assert DefaultColumn(l) == "customer_category_id";
      case Salesman => assert DefaultColumn(l) == "salesman_id";
      case Route => assert DefaultColumn(l) == "route_id";
      case Warehouse => assert DefaultColumn(l) == "warehouse_id";
      case Area => assert DefaultColumn(l) == "area_id";
      case Region => assert DefaultColumn(l) == "region_id";
      case Company => assert DefaultColumn(l) == "company_id";
    }
  }

  /** The column as written is the intended one at every level but the
      customer channel. */
  lemma DefaultColumnAsWrittenAgrees(l: Level)
    ensures DefaultColumnAsWritten(l) == DefaultColumn(l) <==> l != CustomerChannel
  {
    if l == CustomerChannel {
      assert DefaultColumnAsWritten(l) == "customer_channel_id";
      assert |DefaultColumn(l)| != |DefaultColumnAsWritten(l)|;
    }
  }

  /** As written, a request whose lowest list is customer_channel_ids reads
      "customer_channel_id", a column the query does not select. */
  lemma DefaultColumnAsWrittenMissesChannel(p: Selection)
    requires p.customerIds == [] && p.customerCategoryIds == [] && p.customerChannelIds != []
    ensures DefaultLevel(p) == CustomerChannel && GetDeepest(p) == CustomerChannel
    ensures DefaultColumnAsWritten(DefaultLevel(p)) !in SelectedIdColumns(GetDeepest(p))
  {
    DefaultLevelChain(p);
    assert DefaultColumnAsWritten(CustomerChannel) == "customer_channel_id";
  }

  // ----- the item -> entity pivot -----

  /** The additions to default_map: rows whose entity is one of the ids. */
  function DefaultContributions(rows: seq<SalesRow>, col: string, ids: seq<int>): (cs: seq<Contribution<int>>)
    ensures forall j :: 0 <= j < |cs| ==> cs[j].column in ids
  {
    if |rows| == 0 then []
    else
      var r := rows[|rows| - 1];
      DefaultContributions(rows[..|rows| - 1], col, ids) +
      (if Get(r, col).Some? && Get(r, col).value in ids then [Contribution(KeyOf(r), Get(r, col).value, ValueOf(r))] else [])
  }

  /** Rows that do not carry the column add nothing: with the as-written
      column the customer channel view is empty. */
  lemma {:induction false} DefaultContributionsMissingColumn(rows: seq<SalesRow>, col: string, ids: seq<int>)
    requires forall i :: 0 <= i < |rows| ==> col !in rows[i].ids
    ensures DefaultContributions(rows, col, ids) == []
  {
    if |rows| > 0 {
      var n := |rows| - 1;
      assert forall i :: 0 <= i < n ==> rows[..n][i] == rows[i];
      DefaultContributionsMissingColumn(rows[..n], col, ids);
    }
  }

  /** The channel view as written: with rows holding exactly the selected
      id columns, the default map stays empty. */
  lemma ChannelViewAsWrittenIsEmpty(p: Selection, rows: seq<SalesRow>, ids: seq<int>)
    requires p.customerIds == [] && p.customerCategoryIds == [] && p.customerChannelIds != []
    requires forall i :: 0 <= i < |rows| ==> rows[i].ids.Keys == SelectedIdColumns(GetDeepest(p))
    ensures DefaultContributions(rows, DefaultColumnAsWritten(DefaultLevel(p)), ids) == []
  {
    DefaultColumnAsWrittenMissesChannel(p);
    DefaultContributionsMissingColumn(rows, DefaultColumnAsWritten(DefaultLevel(p)), ids);
  }

  /** The default map: for each item, the rows' values summed per entity;
      entities outside the ids get nothing. */
  lemma DefaultCells(rows: seq<SalesRow>, col: string, ids: seq<int>)
    ensures var cs := DefaultContributions(rows, col, ids);
            WellFormed(PivotOf(cs)) &&
            forall k, e :: k in PivotOf(cs).cells ==>
              Cell(PivotOf(cs).cells[k], e) == SumWhere(cs, k, e) &&
              (e !in ids ==> Cell(PivotOf(cs).cells[k], e) == 0.0)
  {
    var cs := DefaultContributions(rows, col, ids);
    PivotOfOrder(cs);
    PivotOfCells(cs);
    forall k, e | e !in ids ensures SumWhere(cs, k, e) == 0.0 {
      SumWhereOtherColumn(cs, k, e);
    }
  }

  lemma {:induction false} SumWhereOtherColumn(cs: seq<Contribution<int>>, k: ItemKey, e: int)
    requires forall j :: 0 <= j < |cs| ==> cs[j].column != e
    ensures SumWhere(cs, k, e) == 0.0
  {
    if |cs| > 0 {
      var n := |cs| - 1;
      assert forall j :: 0 <= j < n ==> cs[..n][j] == cs[j];
      SumWhereOtherColumn(cs[..n], k, e);
    }
  }

  lemma DefaultContributionsSnoc(rows: seq<SalesRow>, i: nat, col: string, ids: seq<int>)
    requires i < |rows|
    ensures var r := rows[i];
            DefaultContributions(rows[..i + 1], col, ids) ==
            DefaultContributions(rows[..i], col, ids) +
            (if Get(r, col).Some? && Get(r, col).value in ids then [Contribution(KeyOf(r), Get(r, col).value, ValueOf(r))] else [])
  {
    assert rows[..i + 1][..i] == rows[..i];
  }

  /** The loop over the rows that fills default_map. */
  method BuildDefaultMap(rows: seq<SalesRow>, col: string, ids: seq<int>) returns (pm: PivotMap<int>)
    ensures pm == PivotOf(DefaultContributions(rows, col, ids))
  {
    pm := PivotMap([], map[]);
    var i := 0;
    while i < |rows|
      invariant 0 <= i <= |rows|
      invariant pm == PivotOf(DefaultContributions(rows[..i], col, ids))
    {
      var r := rows[i];
      DefaultContributionsSnoc(rows, i, col, ids);
      ghost var cs := DefaultContributions(rows[..i], col, ids);
      var ent := Get(r, col);
      if ent.Some? && ent.value in ids {
        var c := Contribution(KeyOf(r), ent.value, ValueOf(r));
        PivotOfSnoc(cs, c);
        pm := AddRow(pm, c);
      } else {
        assert cs + [] == cs;
      }
      i := i + 1;
    }
    assert rows[..i] == rows;
  }

  // ----- the sheet -----

  function TitleRow(names: seq<string>): Row
  {
    Header(["Item ID", "Item Name", "Category"] + names + ["Total"])
  }

  /** The header above the category rows; its first and third cells are
      left empty. */
  function CategoryTitleRow(names: seq<string>): Row
  {
    Header(["", "Category", ""] + names + ["Total"])
  }

  function EntityItemRow(e: Entry<int>, ids: seq<int>): Row
  {
    ItemRow(e.key.id, e.key.name, e.key.category, RowValues(e.cells, ids), RowTotal(e.cells, ids))
  }

  function EntityItemRows(items: seq<Entry<int>>, ids: seq<int>): seq<Row>
  {
    if |items| == 0 then []
    else EntityItemRows(items[..|items| - 1], ids) + [EntityItemRow(items[|items| - 1], ids)]
  }

  function EntityCategoryRows(items: seq<Entry<int>>, cats: seq<string>, ids: seq<int>): seq<Row>
  {
    if |cats| == 0 then []
    else EntityCategoryRows(items, cats[..|cats| - 1], ids) +
         [CategoryRow(cats[|cats| - 1], CategoryValues(items, cats[|cats| - 1], ids), CategoryTotal(items, cats[|cats| - 1], ids))]
  }

  /** entity_totals[eid] += value for every id in turn, over one category. */
  function AddCategory(m: map<int, real>, items: seq<Entry<int>>, cat: string, ids: seq<int>): map<int, real>
  {
    if |ids| == 0 then m
    else
      var m0 := AddCategory(m, items, cat, ids[..|ids| - 1]);
      var e := ids[|ids| - 1];
      m0[e := Cell(m0, e) + CategoryColumn(items, cat, e)]
  }

  /** entity_totals after the loop over the categories. */
  function EntityTotals(items: seq<Entry<int>>, cats: seq<string>, ids: seq<int>): map<int, real>
  {
    if |cats| == 0 then map e | e in ids :: 0.0
    else AddCategory(EntityTotals(items, cats[..|cats| - 1], ids), items, cats[|cats| - 1], ids)
  }

  function SortedCategories(items: seq<Entry<int>>): seq<string>
  {
    SortStrings(Categories(items))
  }

  /** The default sheet: titles, the item rows in first-seen order, a blank
      row, the category titles, one row per category in sorted order, and
      the total row read from entity_totals. */
  function DefaultSheet(items: seq<Entry<int>>, ids: seq<int>, names: seq<string>): seq<Row>
  {
    var cats := SortedCategories(items);
    var totals := EntityTotals(items, cats, ids);
    [TitleRow(names)] + EntityItemRows(items, ids) + [BlankRow, CategoryTitleRow(names)] +
    EntityCategoryRows(items, cats, ids) +
    [TotalRow(seq(|ids|, k requires 0 <= k < |ids| => Cell(totals, ids[k])), SumOfCategoryTotals(items, cats, ids))]
  }

  // ----- what the sheet adds up to -----

  lemma {:induction false} AddCategoryDistinct(m: map<int, real>, items: seq<Entry<int>>, cat: string, ids: seq<int>)
    requires NoDup(ids)
    ensures forall e :: e in ids ==> Cell(AddCategory(m, items, cat, ids), e) == Cell(m, e) + CategoryColumn(items, cat, e)
  {
    if |ids| > 0 {
      var n := |ids| - 1;
      assert NoDup(ids[..n]);
      AddCategoryDistinct(m, items, cat, ids[..n]);
      AddCategoryOthers(m, items, cat, ids[..n], ids[n]);
      assert forall e :: e in ids ==> e in ids[..n] || e == ids[n] by {
        assert ids == ids[..n] + [ids[n]];
      }
    }
  }

  lemma {:induction false} AddCategoryOthers(m: map<int, real>, items: seq<Entry<int>>, cat: string, ids: seq<int>, e: int)
    requires e !in ids
    ensures Cell(AddCategory(m, items, cat, ids), e) == Cell(m, e)
  {
    if |ids| > 0 {
      var n := |ids| - 1;
      assert e != ids[n] && e !in ids[..n];
      AddCategoryOthers(m, items, cat, ids[..n], e);
    }
  }

  /** With distinct ids, entity_totals holds each entity's sum over the
      categories. */
  lemma {:induction false} EntityTotalsSum(items: seq<Entry<int>>, cats: seq<string>, ids: seq<int>)
    requires NoDup(ids)
    ensures forall e :: e in ids ==> Cell(EntityTotals(items, cats, ids), e) == SumOverCategories(items, cats, e)
  {
    if |cats| > 0 {
      var n := |cats| - 1;
      EntityTotalsSum(items, cats[..n], ids);
      AddCategoryDistinct(EntityTotals(items, cats[..n], ids), items, cats[n], ids);
    }
  }

  /** The sorted categories are each item's category, once each, in
      ascending order. */
  lemma SortedCategoriesSpec(items: seq<Entry<int>>)
    ensures var cats := SortedCategories(items);
            NoDup(cats) &&
            (forall i, j :: 0 <= i < j < |cats| ==> StrLeq(cats[i], cats[j])) &&
            (forall c :: c in cats <==> exists i :: 0 <= i < |items| && items[i].key.category == c)
  {
    var l := CategoryList(items);
    var cats := SortedCategories(items);
    DedupMembers(l);
    PermutationNoDup(Categories(items), cats);
    forall c ensures c in cats <==> c in l {
      assert c in cats <==> c in multiset(cats);
      assert c in Categories(items) <==> c in multiset(Categories(items));
    }
    forall c | c in l ensures exists i :: 0 <= i < |items| && items[i].key.category == c {
      var i :| 0 <= i < |l| && l[i] == c;
    }
    forall c | exists i :: 0 <= i < |items| && items[i].key.category == c ensures c in l {
      var i :| 0 <= i < |items| && items[i].key.category == c;
      assert l[i] == c;
    }
  }

  /** With distinct ids, each column of the total row is the column's sum
      over the items; the grand total is the sum of the category totals
      and equally of the item row totals. */
  lemma DefaultSheetTotals(items: seq<Entry<int>>, ids: seq<int>, names: seq<string>)
    requires NoDup(ids)
    ensures var sheet := DefaultSheet(items, ids, names);
            var last := sheet[|sheet| - 1];
            last.TotalRow? &&
            last.values == ColumnValues(items, ids) &&
            last.total == GrandTotal(items, ids) &&
            last.total == SumOfRowTotals(items, ids)
  {
    var cats := SortedCategories(items);
    SortedCategoriesSpec(items);
    EntityTotalsSum(items, cats, ids);
    forall k | 0 <= k < |ids| ensures SumOverCategories(items, cats, ids[k]) == ColumnTotal(items, ids[k]) {
      CoveringCategoriesPartitionColumn(items, cats, ids[k]);
    }
    SwapCategorySums(items, cats, ids);
    assert seq(|ids|, k requires 0 <= k < |ids| => SumOverCategories(items, cats, ids[k])) == ColumnValues(items, ids);
    GrandTotalIsSumOfRowTotals(items, ids);
  }

  // ----- the loops that write it -----

  /** The item rows and, as in category_totals, the categories in the
      order they are first met. */
  method WriteEntityItemRows(items: seq<Entry<int>>, ids: seq<int>) returns (rows: seq<Row>, catOrder: seq<string>)
    ensures rows == EntityItemRows(items, ids)
    ensures catOrder == Categories(items)
  {
    rows := [];
    catOrder := [];
    var i := 0;
    while i < |items|
      invariant 0 <= i <= |items|
      invariant rows == EntityItemRows(items[..i], ids)
      invariant catOrder == Categories(items[..i])
    {
      var e := items[i];
      var values, total := RowOf(e.cells, ids);
      assert items[..i + 1][..i] == items[..i];
      rows := rows + [ItemRow(e.key.id, e.key.name, e.key.category, values, total)];
      CategoriesStep(items, i);
      if e.key.category !in catOrder {
        catOrder := catOrder + [e.key.category];
      }
      i := i + 1;
    }
    assert items[..i] == items;
  }

  /** The inner loop summing one category's items for one entity. */
  method CategoryColumnLoop(items: seq<Entry<int>>, cat: string, e: int) returns (value: real)
    ensures value == CategoryColumn(items, cat, e)
  {
    value := 0.0;
    var i := 0;
    while i < |items|
      invariant 0 <= i <= |items|
      invariant value == CategoryColumn(items[..i], cat, e)
    {
      CategoryColumnStep(items, i, cat, e);
      if items[i].key.category == cat {
        value := value + Cell(items[i].cells, e);
      }
      i := i + 1;
    }
    assert items[..i] == items;
  }

  lemma CategoryStep(items: seq<Entry<int>>, cat: string, ids: seq<int>, k: nat, totals: map<int, real>)
    requires k < |ids|
    ensures CategoryValues(items, cat, ids[..k + 1]) == CategoryValues(items, cat, ids[..k]) + [CategoryColumn(items, cat, ids[k])]
    ensures var m := AddCategory(totals, items, cat, ids[..k]);
            AddCategory(totals, items, cat, ids[..k + 1]) == m[ids[k] := Cell(m, ids[k]) + CategoryColumn(items, cat, ids[k])]
  {
    assert ids[..k + 1][..k] == ids[..k];
  }

  /** One category row; entity_totals receives the category's values. */
  method WriteCategoryRow(items: seq<Entry<int>>, cat: string, ids: seq<int>, totals: map<int, real>)
    returns (row: Row, totals': map<int, real>)
    ensures row == CategoryRow(cat, CategoryValues(items, cat, ids), CategoryTotal(items, cat, ids))
    ensures totals' == AddCategory(totals, items, cat, ids)
  {
    var values: seq<real> := [];
    var catTotal := 0.0;
    totals' := totals;
    var k := 0;
    while k < |ids|
      invariant 0 <= k <= |ids|
      invariant values == CategoryValues(items, cat, ids[..k]) && catTotal == Sum(values)
      invariant totals' == AddCategory(totals, items, cat, ids[..k])
    {
      var value := CategoryColumnLoop(items, cat, ids[k]);
      CategoryStep(items, cat, ids, k, totals);
      SumSnoc(values, value);
      values := values + [value];
      catTotal := catTotal + value;
      totals' := totals'[ids[k] := Cell(totals', ids[k]) + value];
      k := k + 1;
    }
    assert ids[..k] == ids;
    row := CategoryRow(cat, values, catTotal);
  }

  /** The loop over the sorted categories: their rows, entity_totals and
      the grand total. */
  method WriteEntityCategoryRows(items: seq<Entry<int>>, cats: seq<string>, ids: seq<int>)
    returns (rows: seq<Row>, totals: map<int, real>, grand: real)
    ensures rows == EntityCategoryRows(items, cats, ids)
    ensures totals == EntityTotals(items, cats, ids)
    ensures grand == SumOfCategoryTotals(items, cats, ids)
  {
    rows := [];
    totals := map e | e in ids :: 0.0;
    grand := 0.0;
    var j := 0;
    while j < |cats|
      invariant 0 <= j <= |cats|
      invariant rows == EntityCategoryRows(items, cats[..j], ids)
      invariant totals == EntityTotals(items, cats[..j], ids)
      invariant grand == SumOfCategoryTotals(items, cats[..j], ids)
    {
      var row;
      row, totals := WriteCategoryRow(items, cats[j], ids, totals);
      assert cats[..j + 1][..j] == cats[..j];
      rows := rows + [row];
      grand := grand + row.total;
      j := j + 1;
    }
    assert cats[..j] == cats;
  }

  /** The default view from the query rows: the entity of each row is read
      from `col`; ids and names are the default entities and their
      header names. */
  method WriteDefaultView(rows: seq<SalesRow>, col: string, ids: seq<int>, names: seq<string>)
    returns (sheet: seq<Row>)
    ensures var cs := DefaultContributions(rows, col, ids);
            WellFormed(PivotOf(cs)) && sheet == DefaultSheet(Entries(PivotOf(cs)), ids, names)
  {
    var pm := BuildDefaultMap(rows, col, ids);
    PivotOfOrder(DefaultContributions(rows, col, ids));
    var items := Entries(pm);
    var itemRows, catOrder := WriteEntityItemRows(items, ids);
    var cats := SortStrings(catOrder);
    var catRows, totals, grand := WriteEntityCategoryRows(items, cats, ids);
    var totalValues := seq(|ids|, k requires 0 <= k < |ids| => Cell(totals, ids[k]));
    sheet := [TitleRow(names)] + itemRows + [BlankRow, CategoryTitleRow(names)] + catRows + [TotalRow(totalValues, grand)];
  }
}
