/** export_item_quantity_report (item_report/routes/item_export.py) without
    its database and spreadsheet I/O: the request is normalised, the `$k`
    WHERE list is assembled, and the rows the query returns become either
    the default view's per-item totals or the pivot of items by clipped
    period. */
module ItemExport {
  import opened Wrappers
  import opened Calendar
  import opened Sorting
  import opened Granularity
  import opened Sql
  import opened ExportPeriods
  import opened Pivot
  import opened PivotFold
  import opened Hierarchy
  import opened ExportRequest
  import opened ItemExportHelper

  /** The fields of the item FilterSelection the export reads. */
  datatype ItemRequest = ItemRequest(fromDate: string, toDate: string, searchType: Option<string>,
                                     displayQuantity: Option<string>, dataview: Option<string>,
                                     sel: Selection)

  /** The request once normalised. */
  datatype Settings = Settings(fromDay: int, toDay: int, searchType: string, displayQuantity: Option<string>,
                               sel: Selection, defaultView: bool, granularity: Granularity, deep: Level)

  const SearchTypeMessage := "search_type must be quantity or amount"

  /** The checks and defaults at the top of the route, in their order: the
      dates, then the search type; company ids default to [1]. */
  function Normalise(req: ItemRequest): (r: Result<Settings>)
    ensures ParseDates(req.fromDate, req.toDate).Err? ==> r == Err(BadRequest(DatesMessage))
    ensures ParseDates(req.fromDate, req.toDate).Ok? && SearchType(req.searchType, SearchTypeMessage).Err? ==>
              r == Err(BadRequest(SearchTypeMessage))
    ensures r.Ok? <==> ParseDates(req.fromDate, req.toDate).Ok? && SearchType(req.searchType, SearchTypeMessage).Ok?
    ensures r.Ok? ==>
              var s := r.value;
              ValidOrdinal(s.fromDay) && ValidOrdinal(s.toDay) &&
              (s.fromDay, s.toDay) == ParseDates(req.fromDate, req.toDate).value &&
              (s.searchType == "quantity" || s.searchType == "amount") &&
              s.sel.companyIds != [] &&
              s.sel == req.sel.(companyIds := CompanyIds(req.sel.companyIds)) &&
              s.defaultView == IsDefaultView(req.dataview) &&
              s.granularity == Dataview(req.dataview, s.fromDay, s.toDay) &&
              s.deep == ItemGetDeepest(s.sel)
  {
    var dates := ParseDates(req.fromDate, req.toDate);
    var st := SearchType(req.searchType, SearchTypeMessage);
    if dates.Err? then Err(dates.failure)
    else if st.Err? then Err(st.failure)
    else
      var sel := req.sel.(companyIds := CompanyIds(req.sel.companyIds));
      Ok(Settings(dates.value.0, dates.value.1, st.value, req.displayQuantity, sel, IsDefaultView(req.dataview),
                  Dataview(req.dataview, dates.value.0, dates.value.1), ItemGetDeepest(sel)))
  }

  // ----- the WHERE list -----

  /** The six `_add` calls, then the brand and item category filters the
      route appends the same way. */
  function ItemFilters(sel: Selection): seq<AnyFilter>
  {
    [AnyFilter("ms.company_id", sel.companyIds), AnyFilter("ms.region_id", sel.regionIds),
     AnyFilter("ms.area_id", sel.areaIds), AnyFilter("ms.warehouse_id", sel.warehouseIds),
     AnyFilter("ms.route_id", sel.routeIds), AnyFilter("ms.item_id", sel.itemIds),
     AnyFilter("it.brand", sel.brandIds), AnyFilter("ms.item_category_id", sel.itemCategoryIds)]
  }

  const ItemFreeGood := "ms.total_amount > 0"

  /** The WHERE list the route sends with the query. */
  function ItemWhere(s: Settings): Where
  {
    var w := Assemble(Start(s.fromDay, s.toDay), ItemFilters(s.sel));
    if FreeGood(s.searchType, s.displayQuantity) then Where(w.parts + [Fixed(ItemFreeGood)], w.params, w.next)
    else w
  }

  /** The calls as the route makes them, one after the other. */
  method BuildItemWhere(s: Settings) returns (parts: seq<Pred>, params: seq<Value>)
    ensures Where(parts, params, ItemWhere(s).next) == ItemWhere(s)
  {
    var fs := ItemFilters(s.sel);
    var w0 := Start(s.fromDay, s.toDay);
    var idx;
    parts, params, idx := w0.parts, w0.params, w0.next;
    assert fs[..0] == [];
    parts, params, idx := AddFilter(parts, params, idx, w0, fs, 0, "ms.company_id", s.sel.companyIds);
    parts, params, idx := AddFilter(parts, params, idx, w0, fs, 1, "ms.region_id", s.sel.regionIds);
    parts, params, idx := AddFilter(parts, params, idx, w0, fs, 2, "ms.area_id", s.sel.areaIds);
    parts, params, idx := AddFilter(parts, params, idx, w0, fs, 3, "ms.warehouse_id", s.sel.warehouseIds);
    parts, params, idx := AddFilter(parts, params, idx, w0, fs, 4, "ms.route_id", s.sel.routeIds);
    parts, params, idx := AddFilter(parts, params, idx, w0, fs, 5, "ms.item_id", s.sel.itemIds);
    parts, params, idx := AddFilter(parts, params, idx, w0, fs, 6, "it.brand", s.sel.brandIds);
    parts, params, idx := AddFilter(parts, params, idx, w0, fs, 7, "ms.item_category_id", s.sel.itemCategoryIds);
    assert fs[..8] == fs;
    if s.searchType == "quantity" && s.displayQuantity == Some("without_free_good") {
      parts := parts + [Fixed(ItemFreeGood)];
    }
  }

  /** The placeholders run $1 .. $n with n = len(params); after the date
      range come the non-empty filters in call order, so brand and item
      category follow the six id filters; the free-good predicate is there
      exactly for quantity reports without free goods. */
  lemma ItemWhereShape(s: Settings)
    ensures var w := ItemWhere(s);
            var ne := NonEmpty(ItemFilters(s.sel));
            Consecutive(w) && |w.parts| >= 1 + |ne| && |w.params| == 2 + |ne| &&
            w.parts[0] == BetweenPos(InvoiceDate, 1, 2) && w.params[..2] == [Day(s.fromDay), Day(s.toDay)] &&
            (forall k :: 0 <= k < |ne| ==> w.parts[1 + k] == AnyPos(ne[k].col, 3 + k) && w.params[2 + k] == Ids(ne[k].ids)) &&
            (Fixed(ItemFreeGood) in w.parts <==> FreeGood(s.searchType, s.displayQuantity))
  {
    var fs := ItemFilters(s.sel);
    var a := Assemble(Start(s.fromDay, s.toDay), fs);
    AssembledWhere(s.fromDay, s.toDay, fs);
    AssembleShape(Start(s.fromDay, s.toDay), fs);
    assert Fixed(ItemFreeGood) !in a.parts by {
      forall j | 0 <= j < |a.parts| ensures !a.parts[j].Fixed? {
        if j > 0 {
          assert a.parts[1 + (j - 1)] == AnyPos(NonEmpty(fs)[j - 1].col, Start(s.fromDay, s.toDay).next + (j - 1));
        }
      }
    }
    if FreeGood(s.searchType, s.displayQuantity) {
      FixedConsecutive(a, ItemFreeGood);
      assert (a.parts + [Fixed(ItemFreeGood)])[|a.parts|] == Fixed(ItemFreeGood);
    }
  }

  // ----- the rows -----

  /** A row of the grouped query: the item's code and name, the text of
      the period column and the summed value (None for NULL). */
  datatype ItemRow = ItemRow(itemCode: string, itemName: string, period: string, total: Option<real>)

  /** f'{item_code} - {item_name}' */
  function ItemLabel(r: ItemRow): string
  {
    r.itemCode + " - " + r.itemName
  }

  /** float(r["total_value"] or 0.0) */
  function ValueOf(r: ItemRow): real
  {
    match r.total case Some(v) => v case None => 0.0
  }

  function Labels(rows: seq<ItemRow>): (ls: seq<string>)
    ensures |ls| == |rows|
  {
    seq(|rows|, i requires 0 <= i < |rows| => ItemLabel(rows[i]))
  }

  function Values(rows: seq<ItemRow>): (vs: seq<real>)
    ensures |vs| == |rows|
  {
    seq(|rows|, i requires 0 <= i < |rows| => ValueOf(rows[i]))
  }

  /** A sheet row as written cell by cell. */
  datatype SheetRow =
    | Titles(titles: seq<string>)
    | QuantityLine(sno: int, name: string, quantity: real)
    | NumberedLine(sno: int, name: string, values: seq<real>, total: real)
    | TotalLine(values: seq<real>, total: real)

  // ----- the default view -----

  /** totals[name] = totals.get(name, 0.0) + val, row by row. */
  function Totals(rows: seq<ItemRow>): map<string, real>
  {
    if |rows| == 0 then map[]
    else
      var n := |rows| - 1;
      var m := Totals(rows[..n]);
      var name := ItemLabel(rows[n]);
      m[name := Cell(m, name) + ValueOf(rows[n])]
  }

  /** The values of the rows with the given name, added in order. */
  function SumNamed(rows: seq<ItemRow>, name: string): real
  {
    if |rows| == 0 then 0.0
    else
      var n := |rows| - 1;
      SumNamed(rows[..n], name) + (if ItemLabel(rows[n]) == name then ValueOf(rows[n]) else 0.0)
  }

  /** m[n] summed over a list of keys. */
  function SumOver(ns: seq<string>, m: map<string, real>): real
  {
    if |ns| == 0 then 0.0 else SumOver(ns[..|ns| - 1], m) + Cell(m, ns[|ns| - 1])
  }

  /** The default sheet: a line per item name in sorted order, numbered
      from 1, then the grand total of all the rows' values. */
  function DefaultRows(rows: seq<ItemRow>): seq<SheetRow>
  {
    DefaultSheet(SortStrings(Dedup(Labels(rows))), Totals(rows), Sum(Values(rows)))
  }

  /** The titles, a numbered line per name with its total, and the total
      line. */
  function DefaultSheet(names: seq<string>, totals: map<string, real>, grand: real): (sheet: seq<SheetRow>)
    ensures |sheet| == |names| + 2 && sheet[|names| + 1] == TotalLine([], grand)
    ensures forall i :: 0 <= i < |names| ==> sheet[i + 1] == QuantityLine(i + 1, names[i], Cell(totals, names[i]))
  {
    [Titles(["S.No", "Item Name", "Quantity"])]
    + seq(|names|, i requires 0 <= i < |names| => QuantityLine(i + 1, names[i], Cell(totals, names[i])))
    + [TotalLine([], grand)]
  }

  /** Each name's total is the sum of its rows' values; the dict holds
      exactly the names of the rows. */
  lemma {:induction false} TotalsSpec(rows: seq<ItemRow>)
    ensures forall k :: k in Totals(rows) <==> k in Labels(rows)
    ensures forall k :: Cell(Totals(rows), k) == SumNamed(rows, k)
  {
    if |rows| > 0 {
      var n := |rows| - 1;
      TotalsSpec(rows[..n]);
      assert Labels(rows) == Labels(rows[..n]) + [ItemLabel(rows[n])];
    }
  }

  lemma {:induction false} SumOverSame(ns: seq<string>, m: map<string, real>, m': map<string, real>)
    requires forall k :: k in ns ==> Cell(m, k) == Cell(m', k)
    ensures SumOver(ns, m) == SumOver(ns, m')
  {
    if |ns| > 0 {
      SumOverSame(ns[..|ns| - 1], m, m');
    }
  }

  /** Adding v to one listed key adds v to the sum. */
  lemma {:induction false} SumOverBump(ns: seq<string>, m: map<string, real>, x: string, v: real)
    requires NoDup(ns) && x in ns
    ensures SumOver(ns, m[x := Cell(m, x) + v]) == SumOver(ns, m) + v
  {
    var n := |ns| - 1;
    var m' := m[x := Cell(m, x) + v];
    if ns[n] == x {
      assert x !in ns[..n];
      SumOverSame(ns[..n], m, m');
    } else {
      assert x in ns[..n];
      SumOverBump(ns[..n], m, x, v);
    }
  }

  lemma {:induction false} SumOverRemove(ns: seq<string>, m: map<string, real>, j: nat)
    requires j < |ns|
    ensures SumOver(ns, m) == SumOver(ns[..j] + ns[j + 1..], m) + Cell(m, ns[j])
  {
    var n := |ns| - 1;
    if j < n {
      SumOverRemove(ns[..n], m, j);
      assert ns[..n][..j] + ns[..n][j + 1..] == (ns[..j] + ns[j + 1..])[..n - 1];
      assert (ns[..j] + ns[j + 1..])[n - 1] == ns[n];
    } else {
      assert ns[..j] + ns[j + 1..] == ns[..n];
    }
  }

  lemma MultisetWithout(b: seq<string>, j: nat)
    requires j < |b|
    ensures multiset(b[..j] + b[j + 1..]) == multiset(b) - multiset{b[j]}
  {
    assert b == b[..j] + [b[j]] + b[j + 1..];
  }

  /** The sum over keys does not depend on their order. */
  lemma {:induction false} SumOverPermutation(a: seq<string>, b: seq<string>, m: map<string, real>)
    requires multiset(a) == multiset(b)
    ensures SumOver(a, m) == SumOver(b, m)
  {
    if |a| > 0 {
      var n := |a| - 1;
      var x := a[n];
      assert x in multiset(b);
      var j :| 0 <= j < |b| && b[j] == x;
      var b' := b[..j] + b[j + 1..];
      assert multiset(a[..n]) == multiset(b') by {
        MultisetWithout(b, j);
        MultisetWithout(a, n);
        assert a[..n] + a[n + 1..] == a[..n];
      }
      SumOverPermutation(a[..n], b', m);
      SumOverRemove(b, m, j);
    } else {
      assert |b| == 0;
    }
  }

  /** Adding v under x to a dict keyed by the listed names adds v to the
      sum, whether x is new or not. */
  lemma SumOverAdd(ns: seq<string>, m: map<string, real>, x: string, v: real)
    requires NoDup(ns) && (x !in ns ==> x !in m)
    ensures SumOver(if x in ns then ns else ns + [x], m[x := Cell(m, x) + v]) == SumOver(ns, m) + v
  {
    var m' := m[x := Cell(m, x) + v];
    if x in ns {
      SumOverBump(ns, m, x, v);
    } else {
      assert (ns + [x])[..|ns|] == ns;
      SumOverSame(ns, m, m');
    }
  }

  /** The listed totals add up to the sum of all the rows' values. */
  lemma {:induction false} TotalsAddUp(rows: seq<ItemRow>)
    ensures SumOver(Dedup(Labels(rows)), Totals(rows)) == Sum(Values(rows))
  {
    if |rows| > 0 {
      var n := |rows| - 1;
      var ls := Labels(rows[..n]);
      var x := ItemLabel(rows[n]);
      var m := Totals(rows[..n]);
      var v := ValueOf(rows[n]);
      var d := Dedup(ls);
      var ns := if x in d then d else d + [x];
      var t := m[x := Cell(m, x) + v];
      assert NoDup(d) && (x in m <==> x in d) by {
        TotalsSpec(rows[..n]);
        DedupMembers(ls);
      }
      assert Dedup(Labels(rows)) == ns by {
        assert Labels(rows) == ls + [x];
        DedupSnoc(ls, x);
      }
      assert Totals(rows) == t;
      assert SumOver(ns, t) == Sum(Values(rows[..n])) + v by {
        TotalsAddUp(rows[..n]);
        SumOverAdd(d, m, x, v);
      }
      assert Sum(Values(rows)) == Sum(Values(rows[..n])) + v by {
        assert Values(rows) == Values(rows[..n]) + [v];
        SumSnoc(Values(rows[..n]), v);
      }
    }
  }

  /** The sorted names are each row's name once, in ascending order. */
  lemma SortedNames(rows: seq<ItemRow>)
    ensures var names := SortStrings(Dedup(Labels(rows)));
            (forall i, j :: 0 <= i < j < |names| ==> StrLeq(names[i], names[j]) && names[i] != names[j]) &&
            (forall k :: k in names <==> k in Labels(rows))
  {
    var ls := Dedup(Labels(rows));
    var names := SortStrings(ls);
    DedupMembers(Labels(rows));
    PermutationNoDup(ls, names);
    forall k ensures k in names <==> k in ls {
      assert k in names <==> k in multiset(names);
    }
  }

  /** The listed totals, in sorted order, still add up to the grand total. */
  lemma SortedTotalsAddUp(rows: seq<ItemRow>)
    ensures Sum(Values(rows)) == SumOver(SortStrings(Dedup(Labels(rows))), Totals(rows))
  {
    TotalsAddUp(rows);
    SumOverPermutation(Dedup(Labels(rows)), SortStrings(Dedup(Labels(rows))), Totals(rows));
  }

  /** The default sheet lists every item name once, in ascending order,
      numbered 1..n, each with the sum of its rows' values; the total line
      is the sum of all the values and of the listed totals. */
  lemma DefaultRowsSpec(rows: seq<ItemRow>)
    ensures var names := SortStrings(Dedup(Labels(rows)));
            var sheet := DefaultRows(rows);
            |sheet| == |names| + 2 &&
            (forall i, j :: 0 <= i < j < |names| ==> StrLeq(names[i], names[j]) && names[i] != names[j]) &&
            (forall k :: k in names <==> k in Labels(rows)) &&
            (forall i :: 0 <= i < |names| ==>
               sheet[i + 1] == QuantityLine(i + 1, names[i], SumNamed(rows, names[i]))) &&
            sheet[|names| + 1] == TotalLine([], Sum(Values(rows))) &&
            Sum(Values(rows)) == SumOver(names, Totals(rows))
  {
    var names := SortStrings(Dedup(Labels(rows)));
    SortedNames(rows);
    TotalsSpec(rows);
    SortedTotalsAddUp(rows);
    var sheet := DefaultSheet(names, Totals(rows), Sum(Values(rows)));
    forall i | 0 <= i < |names|
      ensures sheet[i + 1] == QuantityLine(i + 1, names[i], SumNamed(rows, names[i]))
    {
      assert Cell(Totals(rows), names[i]) == SumNamed(rows, names[i]);
    }
  }

  /** One step of the totals loop. */
  lemma TotalsStep(rows: seq<ItemRow>, i: nat)
    requires i < |rows|
    ensures Totals(rows[..i + 1]) == Totals(rows[..i])[ItemLabel(rows[i]) := Cell(Totals(rows[..i]), ItemLabel(rows[i])) + ValueOf(rows[i])]
    ensures Sum(Values(rows[..i + 1])) == Sum(Values(rows[..i])) + ValueOf(rows[i])
    ensures Dedup(Labels(rows[..i + 1])) ==
            Dedup(Labels(rows[..i])) + (if ItemLabel(rows[i]) in Totals(rows[..i]) then [] else [ItemLabel(rows[i])])
  {
    assert rows[..i + 1][..i] == rows[..i];
    ValuesSnoc(rows, i);
    LabelsSnoc(rows, i);
  }

  lemma ValuesSnoc(rows: seq<ItemRow>, i: nat)
    requires i < |rows|
    ensures Sum(Values(rows[..i + 1])) == Sum(Values(rows[..i])) + ValueOf(rows[i])
  {
    assert Values(rows[..i + 1]) == Values(rows[..i]) + [ValueOf(rows[i])];
  }

  lemma LabelsSnoc(rows: seq<ItemRow>, i: nat)
    requires i < |rows|
    ensures Dedup(Labels(rows[..i + 1])) ==
            Dedup(Labels(rows[..i])) + (if ItemLabel(rows[i]) in Totals(rows[..i]) then [] else [ItemLabel(rows[i])])
  {
    assert Labels(rows[..i + 1]) == Labels(rows[..i]) + [ItemLabel(rows[i])];
    TotalsSpec(rows[..i]);
    DedupSnoc(Labels(rows[..i]), ItemLabel(rows[i]));
  }

  /** The first loop of the default view: the totals dict in insertion
      order and the grand total. */
  method TotalsLoop(rows: seq<ItemRow>) returns (totals: map<string, real>, order: seq<string>, grand: real)
    ensures totals == Totals(rows) && order == Dedup(Labels(rows)) && grand == Sum(Values(rows))
  {
    totals, order, grand := map[], [], 0.0;
    var i := 0;
    while i < |rows|
      invariant 0 <= i <= |rows|
      invariant totals == Totals(rows[..i]) && grand == Sum(Values(rows[..i]))
      invariant order == Dedup(Labels(rows[..i]))
    {
      var name := ItemLabel(rows[i]);
      var val := ValueOf(rows[i]);
      TotalsStep(rows, i);
      if name !in totals {
        order := order + [name];
      }
      totals := totals[name := Cell(totals, name) + val];
      grand := grand + val;
      i := i + 1;
    }
    assert rows[..i] == rows;
  }

  /** The second loop of the default view: the sorted items numbered
      from 1, then the total row. */
  method WriteDefaultSheet(names: seq<string>, totals: map<string, real>, grand: real) returns (sheet: seq<SheetRow>)
    ensures sheet == DefaultSheet(names, totals, grand)
  {
    sheet := [Titles(["S.No", "Item Name", "Quantity"])];
    var k := 0;
    while k < |names|
      invariant 0 <= k <= |names|
      invariant sheet == [Titles(["S.No", "Item Name", "Quantity"])]
                         + seq(k, t requires 0 <= t < k => QuantityLine(t + 1, names[t], Cell(totals, names[t])))
    {
      sheet := sheet + [QuantityLine(k + 1, names[k], Cell(totals, names[k]))];
      k := k + 1;
    }
    sheet := sheet + [TotalLine([], grand)];
  }

  /** The default view: the totals dict, then sorted(totals.items()). */
  method WriteDefaultView(rows: seq<ItemRow>) returns (sheet: seq<SheetRow>)
    ensures sheet == DefaultRows(rows)
  {
    var totals, order, grand := TotalsLoop(rows);
    sheet := WriteDefaultSheet(SortStrings(order), totals, grand);
  }

  // ----- the period pivot -----

  /** iso_week_to_range of the period column for weekly views, its text
      otherwise. */
  function RawPeriod(r: ItemRow, g: Granularity): string
  {
    if g == Weekly then IsoWeekToRange(r.period) else r.period
  }

  /** Each row's period once clipped to the dates; None skips the row. */
  function Clips(rows: seq<ItemRow>, g: Granularity, fromDay: int, toDay: int): (cl: seq<Result<Option<string>>>)
    requires ValidOrdinal(fromDay) && ValidOrdinal(toDay)
    ensures |cl| == |rows|
  {
    seq(|rows|, i requires 0 <= i < |rows| => ClipPeriodToRange(RawPeriod(rows[i], g), g, fromDay, toDay))
  }

  /** The pivot is keyed by the "code - name" text alone; the id and
      category of the key are fixed. */
  function KeyOf(r: ItemRow): ItemKey
  {
    ItemKey(0, ItemLabel(r), "")
  }

  /** The additions the row loop makes, in row order, given each row's
      clipped period: one per row whose period is not None; a clip that
      raises ends the loop. */
  function Fold(rows: seq<ItemRow>, clips: seq<Result<Option<string>>>): Result<seq<Contribution<string>>>
    requires |clips| == |rows|
  {
    if |rows| == 0 then Ok([])
    else
      var n := |rows| - 1;
      match Fold(rows[..n], clips[..n])
      case Err(f) => Err(f)
      case Ok(cs) =>
        match clips[n]
        case Err(f) => Err(f)
        case Ok(None) => Ok(cs)
        case Ok(Some(p)) => Ok(cs + [Contribution(KeyOf(rows[n]), p, ValueOf(rows[n]))])
  }

  function Accepted(rows: seq<ItemRow>, g: Granularity, fromDay: int, toDay: int): Result<seq<Contribution<string>>>
    requires ValidOrdinal(fromDay) && ValidOrdinal(toDay)
  {
    Fold(rows, Clips(rows, g, fromDay, toDay))
  }

  /** The only failure of the row loop is the ValueError of
      clip_period_to_range on a weekly or daily view. */
  lemma AcceptedFailure(rows: seq<ItemRow>, g: Granularity, fromDay: int, toDay: int)
    requires ValidOrdinal(fromDay) && ValidOrdinal(toDay)
    ensures Accepted(rows, g, fromDay, toDay).Err? ==>
              Accepted(rows, g, fromDay, toDay).failure == ValueError && (g == Weekly || g == Daily)
  {
    var clips := Clips(rows, g, fromDay, toDay);
    FoldSpec(rows, clips);
    if Fold(rows, clips).Err? {
      var i :| 0 <= i < |rows| && clips[i] == Err(Fold(rows, clips).failure);
    }
  }

  /** c is what row i adds: its clipped period is a label, and c puts the
      row's value under that label for the row's item. */
  predicate AddedBy(rows: seq<ItemRow>, clips: seq<Result<Option<string>>>, i: int, c: Contribution<string>)
    requires |clips| == |rows|
  {
    0 <= i < |rows| && clips[i] == Ok(Some(c.column)) && c == Contribution(KeyOf(rows[i]), c.column, ValueOf(rows[i]))
  }

  lemma AddedByPrefix(rows: seq<ItemRow>, clips: seq<Result<Option<string>>>, n: nat, i: int, c: Contribution<string>)
    requires |clips| == |rows| && n <= |rows|
    ensures AddedBy(rows[..n], clips[..n], i, c) <==> i < n && AddedBy(rows, clips, i, c)
  {
    if 0 <= i < n {
      assert rows[..n][i] == rows[i] && clips[..n][i] == clips[i];
    }
  }

  /** The fold fails, with the failure of a row whose clip fails, exactly
      when some row's clip fails; otherwise it holds exactly the additions
      of the rows whose clipped period is a label. */
  lemma {:induction false} FoldSpec(rows: seq<ItemRow>, clips: seq<Result<Option<string>>>)
    requires |clips| == |rows|
    ensures Fold(rows, clips).Ok? <==> forall i :: 0 <= i < |rows| ==> clips[i].Ok?
    ensures Fold(rows, clips).Err? ==> exists i :: 0 <= i < |rows| && clips[i] == Err(Fold(rows, clips).failure)
    ensures Fold(rows, clips).Ok? ==>
              forall c :: c in Fold(rows, clips).value <==> exists i :: AddedBy(rows, clips, i, c)
  {
    if |rows| > 0 {
      var n := |rows| - 1;
      FoldSpec(rows[..n], clips[..n]);
      var a := Fold(rows[..n], clips[..n]);
      if a.Err? {
        var i :| 0 <= i < n && clips[..n][i] == Err(a.failure);
        assert clips[i] == clips[..n][i];
        var k :| 0 <= k < n && !clips[..n][k].Ok?;
        assert clips[k] == clips[..n][k];
      } else if clips[n].Ok? {
        forall i | 0 <= i < |rows| ensures clips[i].Ok? {
          if i < n {
            assert clips[..n][i] == clips[i];
          }
        }
        forall c ensures c in Fold(rows, clips).value <==> exists i :: AddedBy(rows, clips, i, c) {
          FoldHas(rows, clips, c);
        }
      }
    }
  }

  /** What a row adds to the fold: its contribution when its clip is a
      label, nothing otherwise. */
  function Added(r: ItemRow, clip: Option<string>): seq<Contribution<string>>
  {
    if clip.Some? then [Contribution(KeyOf(r), clip.value, ValueOf(r))] else []
  }

  /** The fold of all rows is the fold of the rows before the last plus
      what the last adds. */
  lemma FoldLast(rows: seq<ItemRow>, clips: seq<Result<Option<string>>>)
    requires |clips| == |rows| > 0
    requires var n := |rows| - 1; Fold(rows[..n], clips[..n]).Ok? && clips[n].Ok?
    ensures var n := |rows| - 1;
            Fold(rows, clips) == Ok(Fold(rows[..n], clips[..n]).value + Added(rows[n], clips[n].value))
  {
    var n := |rows| - 1;
    if clips[n].value.None? {
      var cs := Fold(rows[..n], clips[..n]).value;
      assert cs + [] == cs;
    }
  }

  /** One contribution, given the property for the rows before the last. */
  lemma FoldHas(rows: seq<ItemRow>, clips: seq<Result<Option<string>>>, c: Contribution<string>)
    requires |clips| == |rows| > 0
    requires var n := |rows| - 1;
             Fold(rows[..n], clips[..n]).Ok? && clips[n].Ok? &&
             (c in Fold(rows[..n], clips[..n]).value <==> exists i :: AddedBy(rows[..n], clips[..n], i, c))
    ensures c in Fold(rows, clips).value <==> exists i :: AddedBy(rows, clips, i, c)
  {
    var n := |rows| - 1;
    var cs := Fold(rows[..n], clips[..n]).value;
    var add := Added(rows[n], clips[n].value);
    FoldLast(rows, clips);
    if c in cs + add {
      if c in cs {
        var i :| AddedBy(rows[..n], clips[..n], i, c);
        AddedByPrefix(rows, clips, n, i, c);
      } else {
        assert AddedBy(rows, clips, n, c);
      }
    }
    if exists i :: AddedBy(rows, clips, i, c) {
      var i :| AddedBy(rows, clips, i, c);
      AddedByPrefix(rows, clips, n, i, c);
      if i == n {
        assert c in add;
      } else {
        assert c in cs;
      }
    }
  }

  /** The periods set holds exactly the clipped labels of the rows: a row
      clipped to None adds no column. */
  lemma FoldPeriods(rows: seq<ItemRow>, clips: seq<Result<Option<string>>>)
    requires |clips| == |rows| && Fold(rows, clips).Ok?
    ensures forall p :: p in ColumnSet(Fold(rows, clips).value) <==>
              exists i :: 0 <= i < |rows| && clips[i] == Ok(Some(p))
  {
    var cs := Fold(rows, clips).value;
    FoldSpec(rows, clips);
    forall p ensures p in ColumnSet(cs) <==> exists i :: 0 <= i < |rows| && clips[i] == Ok(Some(p))
    {
      ColumnSetHas(cs, p);
      if p in ColumnSet(cs) {
        var k :| 0 <= k < |cs| && cs[k].column == p;
        assert cs[k] in cs;
        var i :| AddedBy(rows, clips, i, cs[k]);
      }
      if exists i :: 0 <= i < |rows| && clips[i] == Ok(Some(p)) {
        var i :| 0 <= i < |rows| && clips[i] == Ok(Some(p));
        var c := Contribution(KeyOf(rows[i]), p, ValueOf(rows[i]));
        assert AddedBy(rows, clips, i, c);
        assert c in cs;
        var k :| 0 <= k < |cs| && cs[k] == c;
      }
    }
  }

  lemma FoldSnoc(rows: seq<ItemRow>, clips: seq<Result<Option<string>>>, i: nat)
    requires |clips| == |rows| && i < |rows|
    ensures Fold(rows[..i + 1], clips[..i + 1]) ==
            match Fold(rows[..i], clips[..i])
            case Err(f) => Err(f)
            case Ok(cs) =>
              match clips[i]
              case Err(f) => Err(f)
              case Ok(None) => Ok(cs)
              case Ok(Some(p)) => Ok(cs + [Contribution(KeyOf(rows[i]), p, ValueOf(rows[i]))])
  {
    assert rows[..i + 1][..i] == rows[..i];
    assert clips[..i + 1][..i] == clips[..i];
  }

  /** list(periods) in the order the rows first produced each label. */
  function PeriodList(cs: seq<Contribution<string>>): seq<string>
  {
    Dedup(Columns(cs))
  }

  lemma PeriodListSnoc(cs: seq<Contribution<string>>, c: Contribution<string>)
    ensures PeriodList(cs + [c]) == PeriodList(cs) + (if c.column in ColumnSet(cs) then [] else [c.column])
  {
    assert Columns(cs + [c]) == Columns(cs) + [c.column];
    DedupColumns(cs);
    DedupMembers(Columns(cs));
    DedupSnoc(Columns(cs), c.column);
  }

  /** The row loop: pivot.setdefault(item, {})[period] += qty and
      periods.add(period) for each row whose clipped period is not None. */
  method FoldPivot(rows: seq<ItemRow>, g: Granularity, fromDay: int, toDay: int)
    returns (r: Result<(PivotMap<string>, set<string>, seq<string>)>)
    requires ValidOrdinal(fromDay) && ValidOrdinal(toDay)
    ensures Accepted(rows, g, fromDay, toDay).Err? ==> r == Err(ValueError)
    ensures Accepted(rows, g, fromDay, toDay).Ok? ==>
              var cs := Accepted(rows, g, fromDay, toDay).value;
              r == Ok((PivotOf(cs), ColumnSet(cs), PeriodList(cs)))
  {
    ghost var clips := Clips(rows, g, fromDay, toDay);
    var pivot := EmptyPivot;
    var periods: set<string> := {};
    var listed: seq<string> := [];
    var i := 0;
    while i < |rows|
      invariant 0 <= i <= |rows|
      invariant Fold(rows[..i], clips[..i]).Ok?
      invariant pivot == PivotOf(Fold(rows[..i], clips[..i]).value)
      invariant periods == ColumnSet(Fold(rows[..i], clips[..i]).value)
      invariant listed == PeriodList(Fold(rows[..i], clips[..i]).value)
    {
      ghost var cs := Fold(rows[..i], clips[..i]).value;
      FoldSnoc(rows, clips, i);
      var period := ClipPeriodToRange(RawPeriod(rows[i], g), g, fromDay, toDay);
      assert period == clips[i];
      if period.Err? {
        FoldSpec(rows, clips);
        AcceptedFailure(rows, g, fromDay, toDay);
        return Err(ValueError);
      }
      if period.value.Some? {
        var c := Contribution(KeyOf(rows[i]), period.value.value, ValueOf(rows[i]));
        PivotOfSnoc(cs, c);
        ColumnSetSnoc(cs, c);
        PeriodListSnoc(cs, c);
        if c.column !in periods {
          listed := listed + [c.column];
        }
        pivot := AddRow(pivot, c);
        periods := periods + {c.column};
      }
      i := i + 1;
    }
    assert rows[..i] == rows && clips[..i] == clips;
    r := Ok((pivot, periods, listed));
  }

  /** The numbered item lines over the sorted periods. */
  function Lines(items: seq<Entry<string>>, periods: seq<string>): seq<SheetRow>
  {
    seq(|items|, i requires 0 <= i < |items| =>
      NumberedLine(i + 1, items[i].key.name, RowValues(items[i].cells, periods), RowTotal(items[i].cells, periods)))
  }

  /** The pivot sheet: titles, the item lines in the dict's order, and the
      totals line with the per-period grand totals and the sum of the row
      totals. */
  function PivotSheet(items: seq<Entry<string>>, periods: seq<string>, labels: seq<string>): seq<SheetRow>
  {
    [Titles(["S.No", "Item Name"] + labels + ["Total"])] + Lines(items, periods)
    + [TotalLine(ColumnValues(items, periods), SumOfRowTotals(items, periods))]
  }

  /** Each period's grand total sums that period over the items, and the
      final total, summed from the row totals, is also the sum of the
      period grand totals. */
  lemma PivotSheetTotals(items: seq<Entry<string>>, periods: seq<string>, labels: seq<string>)
    ensures var sheet := PivotSheet(items, periods, labels);
            var last := sheet[|sheet| - 1];
            |sheet| == |items| + 2 && last.TotalLine? && |last.values| == |periods| &&
            (forall k :: 0 <= k < |periods| ==> last.values[k] == ColumnTotal(items, periods[k])) &&
            last.total == SumOfRowTotals(items, periods) && last.total == Sum(last.values)
  {
    GrandTotalIsSumOfRowTotals(items, periods);
  }

  /** The data loop and the final total row: row totals and the per-period
      grand totals accumulate together. */
  method WritePivotSheet(items: seq<Entry<string>>, periods: seq<string>, labels: seq<string>)
    returns (sheet: seq<SheetRow>)
    ensures sheet == PivotSheet(items, periods, labels)
  {
    sheet := [Titles(["S.No", "Item Name"] + labels + ["Total"])];
    var grandTotals := Zeros(|periods|);
    var grand := 0.0;
    var i := 0;
    while i < |items|
      invariant 0 <= i <= |items|
      invariant sheet == [Titles(["S.No", "Item Name"] + labels + ["Total"])] + Lines(items[..i], periods)
      invariant grandTotals == ColumnValues(items[..i], periods)
      invariant grand == SumOfRowTotals(items[..i], periods)
    {
      var values, rowTotal := RowOf(items[i].cells, periods);
      sheet := sheet + [NumberedLine(i + 1, items[i].key.name, values, rowTotal)];
      grandTotals := AddCells(grandTotals, items[i].cells, periods);
      grand := grand + rowTotal;
      forall k | 0 <= k < |periods| ensures grandTotals[k] == ColumnTotal(items[..i + 1], periods[k]) {
        ColumnTotalStep(items, i, periods[k]);
      }
      assert items[..i + 1][..i] == items[..i];
      assert Lines(items[..i + 1], periods) == Lines(items[..i], periods) + [Lines(items, periods)[i]];
      i := i + 1;
    }
    assert items[..i] == items;
    sheet := sheet + [TotalLine(grandTotals, grand)];
  }


  /** format_period_label of each sorted period; the first that does not
      parse raises. */
  function PeriodLabels(sorted: seq<string>, g: Granularity): Result<seq<string>>
  {
    MapAll((p: string) => FormatPeriodLabel(p, g), sorted)
  }

  /** The sheet of the pivot views, or the ValueError one of the helpers
      raises. */
  function PivotView(rows: seq<ItemRow>, s: Settings): Result<seq<SheetRow>>
    requires ValidOrdinal(s.fromDay) && ValidOrdinal(s.toDay)
  {
    match Accepted(rows, s.granularity, s.fromDay, s.toDay)
    case Err(f) => Err(f)
    case Ok(cs) =>
      PivotOfOrder(cs);
      match SortPeriods(PeriodList(cs), s.granularity)
      case Err(f) => Err(f)
      case Ok(sorted) =>
        match PeriodLabels(sorted, s.granularity)
        case Err(f) => Err(f)
        case Ok(labels) => Ok(PivotSheet(Entries(PivotOf(cs)), sorted, labels))
  }

  /** The pivot's columns are each accepted period once, in ascending
      date order, and its item lines follow the order in which the rows
      first named each item. */
  lemma PivotViewSpec(rows: seq<ItemRow>, s: Settings)
    requires ValidOrdinal(s.fromDay) && ValidOrdinal(s.toDay)
    requires Accepted(rows, s.granularity, s.fromDay, s.toDay).Ok?
    ensures var cs := Accepted(rows, s.granularity, s.fromDay, s.toDay).value;
            var sorted := SortPeriods(PeriodList(cs), s.granularity);
            WellFormed(PivotOf(cs)) && PivotOf(cs).order == Dedup(KeysOf(cs)) &&
            (sorted.Ok? ==>
               NoDup(sorted.value) &&
               (forall p :: p in sorted.value <==> p in ColumnSet(cs)) &&
               (forall i, j :: 0 <= i < j < |sorted.value| ==>
                  PeriodKey(sorted.value[i], s.granularity).value <= PeriodKey(sorted.value[j], s.granularity).value))
  {
    var cs := Accepted(rows, s.granularity, s.fromDay, s.toDay).value;
    PivotOfOrder(cs);
    DedupColumns(cs);
    var sorted := SortPeriods(PeriodList(cs), s.granularity);
    if sorted.Ok? {
      PermutationNoDup(PeriodList(cs), sorted.value);
      forall p ensures p in sorted.value <==> p in PeriodList(cs) {
        assert p in sorted.value <==> p in multiset(sorted.value);
      }
    }
  }

  /** The pivot branch of the route, from the row loop to the total row. */
  method WritePivotView(rows: seq<ItemRow>, s: Settings) returns (r: Result<seq<SheetRow>>)
    requires ValidOrdinal(s.fromDay) && ValidOrdinal(s.toDay)
    ensures r == PivotView(rows, s)
  {
    var g := s.granularity;
    var folded := FoldPivot(rows, g, s.fromDay, s.toDay);
    if folded.Err? {
      AcceptedFailure(rows, g, s.fromDay, s.toDay);
      return Err(ValueError);
    }
    var (pivot, periods, listed) := folded.value;
    ghost var cs := Accepted(rows, g, s.fromDay, s.toDay).value;
    PivotOfOrder(cs);
    var sorted := SortPeriods(listed, g);
    if sorted.Err? {
      return Err(ValueError);
    }
    var labels := PeriodLabels(sorted.value, g);
    if labels.Err? {
      return Err(labels.failure);
    }
    var sheet := WritePivotSheet(Entries(pivot), sorted.value, labels.value);
    r := Ok(sheet);
  }

  /** The route after its query: `rows` are the rows the query returns. */
  method Export(req: ItemRequest, rows: seq<ItemRow>) returns (r: Result<seq<SheetRow>>)
    ensures Normalise(req).Err? ==> r == Err(Normalise(req).failure)
    ensures Normalise(req).Ok? && rows == [] ==> r == Err(Http(404, NoDataMessage))
    ensures Normalise(req).Ok? && rows != [] && Normalise(req).value.defaultView ==> r == Ok(DefaultRows(rows))
    ensures Normalise(req).Ok? && rows != [] && !Normalise(req).value.defaultView ==>
              r == PivotView(rows, Normalise(req).value)
  {
    var norm := Normalise(req);
    if norm.Err? {
      return Err(norm.failure);
    }
    var s := norm.value;
    if rows == [] {
      return Err(Http(404, NoDataMessage));
    }
    if s.defaultView {
      var sheet := WriteDefaultView(rows);
      return Ok(sheet);
    }
    r := WritePivotView(rows, s);
  }
}
