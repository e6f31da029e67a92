/** The deterministic part of the sales report table route: the grouping
    level, the extra joins it brings, the select and group-by lists, and
    the pagination of the response. The joins and WHERE fragments it starts
    from come from a shared query builder and are inputs here. */
module SalesTable {
  import opened Wrappers
  import opened Text
  import opened Sorting
  import opened Sql

  // ---- grouping level ----

  /** The column grouped on, its alias, and the extra join text it needs. */
  datatype GroupLevel = GroupLevel(col: string, name: string, extraJoins: string)

  /** A multi-line join text: one join per line between a leading and a
      trailing line break (the literal's indentation is not reproduced). */
  function Block(lines: seq<string>): string
  {
    Join([""] + lines + [""], "\n")
  }

  /** `LEFT JOIN <table> <alias> ON <condition>` */
  function LeftJoin(table: string, alias: string, on: string): string
  {
    "LEFT JOIN " + table + " " + alias + " ON " + on
  }

  const CustomerJoins := [
    LeftJoin("agent_customers", "c", "c.id = ih.customer_id"),
    LeftJoin("customer_categories", "cc", "cc.id = c.category_id"),
    LeftJoin("outlet_channel", "ch", "ch.id = c.outlet_channel_id")]
  const SalesmanJoin := LeftJoin("salesman", "sm", "sm.id = ih.salesman_id")
  const RouteJoin := LeftJoin("tbl_route", "rt", "rt.id = ih.route_id")
  const WarehouseNameJoin := LeftJoin("tbl_warehouse", "wh", "wh.id = ih.warehouse_id")
  const AreaJoin := LeftJoin("tbl_areas", "ar", "ar.id = w.area_id")
  const RegionJoin := LeftJoin("tbl_region", "rg", "rg.id = ar.region_id")
  const CompanyJoin := LeftJoin("tbl_company", "co", "co.id = ih.company_id")

  const ItemGroup := GroupLevel("it.name", "item_name", "")
  const CategoryGroup := GroupLevel("cat.category_name", "item_category", "")
  const CustomerGroup := GroupLevel("c.name", "customer_name", Block(CustomerJoins))
  const SalesmanGroup := GroupLevel("sm.name", "salesman_name", SalesmanJoin)
  const RouteGroup := GroupLevel("rt.route_name", "route_name", RouteJoin)
  const WarehouseGroup := GroupLevel("wh.warehouse_name", "warehouse_name", WarehouseNameJoin)
  const AreaGroup := GroupLevel("ar.area_name", "area_name", Block([AreaJoin]))
  const RegionGroup := GroupLevel("rg.region_name", "region_name", Block([AreaJoin, RegionJoin]))
  const CompanyGroup := GroupLevel("co.company_name", "company_name", CompanyJoin)

  predicate AnyCustomerFilter(f: Filters)
  {
    f.customerIds != [] || f.channelIds != [] || f.customerCategoryIds != []
  }

  /** The if/elif chain: the finest filter given decides the level; with
      none given the company level is used. */
  function LevelOf(f: Filters): (g: GroupLevel)
    ensures g == ItemGroup <==> f.itemIds != []
    ensures g == CategoryGroup <==> f.itemIds == [] && f.itemCategoryIds != []
    ensures g == CustomerGroup <==> f.itemIds == [] && f.itemCategoryIds == [] && AnyCustomerFilter(f)
    ensures g == SalesmanGroup <==>
              f.itemIds == [] && f.itemCategoryIds == [] && !AnyCustomerFilter(f) && f.salesmanIds != []
    ensures g == RouteGroup <==>
              f.itemIds == [] && f.itemCategoryIds == [] && !AnyCustomerFilter(f) && f.salesmanIds == []
              && f.routeIds != []
    ensures g == WarehouseGroup <==>
              f.itemIds == [] && f.itemCategoryIds == [] && !AnyCustomerFilter(f) && f.salesmanIds == []
              && f.routeIds == [] && f.warehouseIds != []
    ensures g == AreaGroup <==>
              f.itemIds == [] && f.itemCategoryIds == [] && !AnyCustomerFilter(f) && f.salesmanIds == []
              && f.routeIds == [] && f.warehouseIds == [] && f.areaIds != []
    ensures g == RegionGroup <==>
              f.itemIds == [] && f.itemCategoryIds == [] && !AnyCustomerFilter(f) && f.salesmanIds == []
              && f.routeIds == [] && f.warehouseIds == [] && f.areaIds == [] && f.regionIds != []
    ensures g == CompanyGroup <==>
              f.itemIds == [] && f.itemCategoryIds == [] && !AnyCustomerFilter(f) && f.salesmanIds == []
              && f.routeIds == [] && f.warehouseIds == [] && f.areaIds == [] && f.regionIds == []
  {
    if f.itemIds != [] then ItemGroup
    else if f.itemCategoryIds != [] then CategoryGroup
    else if AnyCustomerFilter(f) then CustomerGroup
    else if f.salesmanIds != [] then SalesmanGroup
    else if f.routeIds != [] then RouteGroup
    else if f.warehouseIds != [] then WarehouseGroup
    else if f.areaIds != [] then AreaGroup
    else if f.regionIds != [] then RegionGroup
    else CompanyGroup
  }

  /** A customer filter groups by customer unless an item or category
      filter is given; the organisation filters below it never override
      it. */
  lemma CustomerOutranksOrganisation(f: Filters)
    requires AnyCustomerFilter(f) && f.itemIds == [] && f.itemCategoryIds == []
    ensures LevelOf(f) == CustomerGroup
    ensures LevelOf(f) == LevelOf(f.(salesmanIds := [], routeIds := [], warehouseIds := [],
                                      areaIds := [], regionIds := [], companyIds := []))
  {
  }

  /** Company ids never change the level: with no finer filter the chain
      ends at company with or without them. */
  lemma CompanyIdsIrrelevant(f: Filters, ids: seq<int>)
    ensures LevelOf(f.(companyIds := ids)) == LevelOf(f)
  {
  }

  // ---- extra joins ----

  /** The stripped, non-empty lines among ls. */
  function NonEmptyStripped(ls: seq<string>): (r: seq<string>)
    ensures |r| <= |ls|
    ensures forall i :: 0 <= i < |r| ==> r[i] != ""
  {
    if |ls| == 0 then []
    else
      var l := Strip(ls[|ls| - 1]);
      NonEmptyStripped(ls[..|ls| - 1]) + (if l != "" then [l] else [])
  }

  /** `[j.strip() for j in text.split("\n") if j.strip()]` */
  function TrimmedLines(text: string): seq<string>
  {
    NonEmptyStripped(Split(text, "\n"))
  }

  /** A line that starts and ends with a non-space is its own strip. */
  lemma StripKeeps(l: string)
    requires |l| > 0 && !IsSpace(l[0]) && !IsSpace(l[|l| - 1])
    ensures Strip(l) == l
  {
    assert TrimLeft(l) == l;
  }

  /** A join line: non-empty, on one line, no surrounding whitespace. */
  predicate JoinLine(l: string)
  {
    |l| > 0 && '\n' !in l && !IsSpace(l[0]) && !IsSpace(l[|l| - 1])
  }

  lemma LeftJoinLine(table: string, alias: string, on: string)
    requires '\n' !in table && '\n' !in alias && '\n' !in on && |on| > 0 && !IsSpace(on[|on| - 1])
    ensures JoinLine(LeftJoin(table, alias, on))
  {
    var l := LeftJoin(table, alias, on);
    assert l[0] == 'L';
    assert l[|l| - 1] == on[|on| - 1];
  }

  lemma {:induction false} NonEmptyStrippedAppend(a: seq<string>, b: seq<string>)
    ensures NonEmptyStripped(a + b) == NonEmptyStripped(a) + NonEmptyStripped(b)
    decreases |b|
  {
    if |b| == 0 {
      assert a + b == a;
    } else {
      var c := b[..|b| - 1];
      var l := Strip(b[|b| - 1]);
      var t := if l != "" then [l] else [];
      assert NonEmptyStripped(a + b) == NonEmptyStripped(a + c) + t by {
        assert (a + b)[..|a + b| - 1] == a + c;
      }
      assert NonEmptyStripped(b) == NonEmptyStripped(c) + t;
      NonEmptyStrippedAppend(a, c);
      ConcatAssoc(NonEmptyStripped(a), NonEmptyStripped(c), t);
    }
  }

  lemma ConcatAssoc<T>(x: seq<T>, y: seq<T>, z: seq<T>)
    ensures (x + y) + z == x + (y + z)
  {
  }

  /** One more line for the comprehension. */
  lemma NonEmptyStrippedSnoc(ls: seq<string>, i: nat)
    requires i < |ls|
    ensures var l := Strip(ls[i]);
            NonEmptyStripped(ls[..i + 1]) == NonEmptyStripped(ls[..i]) + (if l != "" then [l] else [])
  {
    assert ls[..i + 1][..i] == ls[..i];
  }

  lemma {:induction false} NonEmptyStrippedLines(ls: seq<string>)
    requires forall i :: 0 <= i < |ls| ==> ls[i] != "" && Strip(ls[i]) == ls[i]
    ensures NonEmptyStripped(ls) == ls
  {
    if |ls| > 0 {
      NonEmptyStrippedLines(ls[..|ls| - 1]);
    }
  }

  /** The trimmed lines of a join block are its joins; a one-line text is
      its own single line. */
  lemma BlockLines(lines: seq<string>)
    requires forall i :: 0 <= i < |lines| ==> JoinLine(lines[i])
    ensures TrimmedLines(Block(lines)) == lines
  {
    var parts := [""] + lines + [""];
    forall k | 0 <= k < |parts| ensures Avoids(parts[k], "\n"[0]) {
      if 0 < k < |parts| - 1 {
        assert parts[k] == lines[k - 1];
        assert '\n' !in parts[k];
      }
    }
    SplitJoin(parts, "\n");
    NonEmptyStrippedAppend([""] + lines, [""]);
    NonEmptyStrippedAppend([""], lines);
    assert Strip("") == "";
    assert NonEmptyStripped([""]) == [];
    forall i | 0 <= i < |lines| ensures lines[i] != "" && Strip(lines[i]) == lines[i] {
      StripKeeps(lines[i]);
    }
    NonEmptyStrippedLines(lines);
  }

  lemma OneLine(l: string)
    requires JoinLine(l)
    ensures TrimmedLines(l) == [l]
  {
    assert Join([l], "\n") == l;
    assert Avoids(l, "\n"[0]);
    SplitJoin([l], "\n");
    StripKeeps(l);
    NonEmptyStrippedLines([l]);
  }

  /** The join lines each level brings, by the same precedence. */
  function LevelJoins(f: Filters): seq<string>
  {
    if f.itemIds != [] || f.itemCategoryIds != [] then []
    else if AnyCustomerFilter(f) then CustomerJoins
    else if f.salesmanIds != [] then [SalesmanJoin]
    else if f.routeIds != [] then [RouteJoin]
    else if f.warehouseIds != [] then [WarehouseNameJoin]
    else if f.areaIds != [] then [AreaJoin]
    else if f.regionIds != [] then [AreaJoin, RegionJoin]
    else [CompanyJoin]
  }

  lemma CustomerLines()
    ensures TrimmedLines(CustomerGroup.extraJoins) == CustomerJoins
  {
    LeftJoinLine("agent_customers", "c", "c.id = ih.customer_id");
    LeftJoinLine("customer_categories", "cc", "cc.id = c.category_id");
    LeftJoinLine("outlet_channel", "ch", "ch.id = c.outlet_channel_id");
    BlockLines(CustomerJoins);
  }

  lemma AreaLines()
    ensures TrimmedLines(AreaGroup.extraJoins) == [AreaJoin]
    ensures TrimmedLines(RegionGroup.extraJoins) == [AreaJoin, RegionJoin]
  {
    LeftJoinLine("tbl_areas", "ar", "ar.id = w.area_id");
    LeftJoinLine("tbl_region", "rg", "rg.id = ar.region_id");
    BlockLines([AreaJoin]);
    BlockLines([AreaJoin, RegionJoin]);
  }

  /** A level whose extra join text is a single join line. */
  lemma SingleLine(g: GroupLevel, table: string, alias: string, on: string)
    requires g.extraJoins == LeftJoin(table, alias, on)
    requires '\n' !in table && '\n' !in alias && '\n' !in on && |on| > 0 && !IsSpace(on[|on| - 1])
    ensures TrimmedLines(g.extraJoins) == [g.extraJoins]
  {
    LeftJoinLine(table, alias, on);
    OneLine(g.extraJoins);
  }

  lemma NoLines()
    ensures TrimmedLines("") == []
  {
    assert Split("", "\n") == [""] by {
      assert IndexFrom("", "\n", 0).None?;
    }
    assert NonEmptyStripped([""]) == [] by {
      assert Strip("") == "";
    }
  }

  lemma SalesmanLines()
    ensures TrimmedLines(SalesmanGroup.extraJoins) == [SalesmanJoin]
  {
    SingleLine(SalesmanGroup, "salesman", "sm", "sm.id = ih.salesman_id");
  }

  lemma RouteLines()
    ensures TrimmedLines(RouteGroup.extraJoins) == [RouteJoin]
  {
    SingleLine(RouteGroup, "tbl_route", "rt", "rt.id = ih.route_id");
  }

  lemma WarehouseLines()
    ensures TrimmedLines(WarehouseGroup.extraJoins) == [WarehouseNameJoin]
  {
    SingleLine(WarehouseGroup, "tbl_warehouse", "wh", "wh.id = ih.warehouse_id");
  }

  lemma CompanyLines()
    ensures TrimmedLines(CompanyGroup.extraJoins) == [CompanyJoin]
  {
    SingleLine(CompanyGroup, "tbl_company", "co", "co.id = ih.company_id");
  }

  /** The text of each level's extra joins yields exactly its join lines. */
  lemma ExtraJoinLines(f: Filters)
    ensures TrimmedLines(LevelOf(f).extraJoins) == LevelJoins(f)
  {
    NoLines();
    CustomerLines();
    SalesmanLines();
    RouteLines();
    WarehouseLines();
    CompanyLines();
    AreaLines();
  }

  /** The list comprehension over the extra join text. */
  method TrimLines(extra: string) returns (lines: seq<string>)
    ensures lines == TrimmedLines(extra)
  {
    var pieces := Split(extra, "\n");
    lines := [];
    var i := 0;
    while i < |pieces|
      invariant 0 <= i <= |pieces|
      invariant lines == NonEmptyStripped(pieces[..i])
    {
      NonEmptyStrippedSnoc(pieces, i);
      var l := Strip(pieces[i]);
      if l != "" {
        lines := lines + [l];
      }
      i := i + 1;
    }
    assert pieces[..|pieces|] == pieces;
  }

  /** Append the trimmed extra join lines one by one, then keep each join
      once in first-seen order. */
  method AppendExtraJoins(joins: seq<string>, extra: string) returns (r: seq<string>)
    ensures r == Dedup(joins + TrimmedLines(extra))
  {
    var lines := TrimLines(extra);
    r := joins;
    var k := 0;
    while k < |lines|
      invariant 0 <= k <= |lines|
      invariant r == joins + lines[..k]
    {
      r := r + [lines[k]];
      assert lines[..k + 1] == lines[..k] + [lines[k]];
      k := k + 1;
    }
    assert lines[..|lines|] == lines;
    r := Dedup(r);
  }

  /** Deduplicating a longer list keeps the deduplicated prefix as is. */
  lemma {:induction false} DedupPrefix<T>(a: seq<T>, b: seq<T>)
    ensures Dedup(a) <= Dedup(a + b)
    decreases |b|
  {
    if |b| == 0 {
      assert a + b == a;
    } else {
      var b' := b[..|b| - 1];
      assert a + b == (a + b') + [b[|b| - 1]];
      DedupPrefix(a, b');
      DedupSnoc(a + b', b[|b| - 1]);
    }
  }

  /** Appending and deduplicating keeps every join once, drops none, and
      leaves the deduplicated given joins in front. */
  lemma DedupAppend(joins: seq<string>, extra: seq<string>)
    ensures var r := Dedup(joins + extra);
            && NoDup(r)
            && (forall j :: j in r <==> j in joins || j in extra)
            && Dedup(joins) <= r
  {
    DedupMembers(joins + extra);
    DedupPrefix(joins, extra);
  }

  /** The joins of the final query hold every join given and every join of
      the level, each once, with the given ones first in their order. */
  lemma JoinsOfTable(f: Filters, joins: seq<string>)
    ensures var r := Dedup(joins + TrimmedLines(LevelOf(f).extraJoins));
            && NoDup(r)
            && (forall j :: j in r <==> j in joins || j in LevelJoins(f))
            && Dedup(joins) <= r
  {
    ExtraJoinLines(f);
    DedupAppend(joins, LevelJoins(f));
  }

  // ---- select and group-by lists ----

  /** The aggregated value: quantity when search_type is "quantity" in
      any case, the item total otherwise. */
  function ValueColumn(searchType: string): (v: string)
    ensures v == "SUM(id.quantity) AS total_quantity" <==> Lower(searchType) == "quantity"
  {
    if Lower(searchType) == "quantity" then "SUM(id.quantity) AS total_quantity"
    else "SUM(id.item_total) AS total_amount"
  }

  const CategoryField := "cc.customer_category_name AS customer_category_name"
  const ChannelField := "ch.outlet_channel AS channel_name"

  function LevelField(g: GroupLevel): string { g.col + " AS " + g.name }

  const LeadingFields := ["it.code AS item_code", "it.name AS item_name", "cat.category_name AS item_category", "ih.invoice_date"]
  const LeadingGroup := ["it.code", "it.name", "cat.category_name", "ih.invoice_date"]

  /** The final select list: the four leading fields, the channel field
      if channels are filtered, the customer category field if categories
      are filtered, the level field, and the value last. */
  function SelectLayout(f: Filters): seq<string>
  {
    LeadingFields + Opt(f.channelIds != [], ChannelField) + Opt(f.customerCategoryIds != [], CategoryField)
    + [LevelField(LevelOf(f)), ValueColumn(f.searchType)]
  }

  /** The final group-by list: the four leading columns, the level column,
      then customer category and channel in that order. */
  function GroupLayout(f: Filters): seq<string>
  {
    LeadingGroup + [LevelOf(f).col]
    + Opt(f.customerCategoryIds != [], "cc.customer_category_name")
    + Opt(f.channelIds != [], "ch.outlet_channel")
  }

  /** select_fields and group_fields, with the optional fields inserted at
      index 4 of the select list and appended to the group list. */
  method BuildFields(f: Filters) returns (select: seq<string>, group: seq<string>)
    ensures select == SelectLayout(f)
    ensures group == GroupLayout(f)
  {
    var g := LevelOf(f);
    var value := ValueColumn(f.searchType);
    select := LeadingFields + [g.col + " AS " + g.name, value];
    group := LeadingGroup + [g.col];
    if f.customerCategoryIds != [] {
      select := select[..4] + [CategoryField] + select[4..];
      group := group + ["cc.customer_category_name"];
    }
    if f.channelIds != [] {
      select := select[..4] + [ChannelField] + select[4..];
      group := group + ["ch.outlet_channel"];
    }
  }

  /** The level is both selected and grouped on, the value is the last
      field, and every select field but the value has its group-by
      column. */
  lemma LayoutShape(f: Filters)
    ensures var s, g := SelectLayout(f), GroupLayout(f);
            && s[..4] == LeadingFields && g[..4] == LeadingGroup
            && LevelField(LevelOf(f)) in s && LevelOf(f).col in g
            && s[|s| - 1] == ValueColumn(f.searchType)
            && |s| == |g| + 1
  {
    var s := SelectLayout(f);
    assert s[|s| - 2] == LevelField(LevelOf(f));
  }

  /** Each optional field is present exactly when its filter is given;
      channel precedes category in the select list while category precedes
      channel in the group list. */
  lemma OptionalFields(f: Filters)
    ensures var s, g := SelectLayout(f), GroupLayout(f);
            && (ChannelField in s <==> f.channelIds != [])
            && (CategoryField in s <==> f.customerCategoryIds != [])
            && (f.channelIds != [] && f.customerCategoryIds != [] ==>
                  s[4] == ChannelField && s[5] == CategoryField
                  && g[5] == "cc.customer_category_name" && g[6] == "ch.outlet_channel")
  {
    var v, l := ValueColumn(f.searchType), LevelField(LevelOf(f));
    assert v != ChannelField && v != CategoryField;
    assert l != ChannelField && l != CategoryField;
    assert ChannelField !in LeadingFields && CategoryField !in LeadingFields;
  }

  // ---- pagination ----

  const RowsPerPage := 50

  function Max(a: int, b: int): int { if a >= b then a else b }

  /** ceil(a / b) for a non-negative a and a positive b. */
  function CeilDiv(a: nat, b: nat): (q: nat)
    requires b > 0
    ensures (q - 1) * b < a <= q * b || (a == 0 && q == 0)
  {
    (a + b - 1) / b
  }

  /** The rows skipped before page `page` (pages below 1 read as 1). */
  function Offset(page: int): (o: nat)
    ensures o % RowsPerPage == 0
  {
    (Max(page, 1) - 1) * RowsPerPage
  }

  /** max(ceil(total / 50), 1). */
  function TotalPages(total: nat): (n: nat)
    ensures n >= 1
    ensures total <= n * RowsPerPage
    ensures n == 1 || (n - 1) * RowsPerPage < total
  {
    Max(CeilDiv(total, RowsPerPage), 1)
  }

  /** Every row has exactly one page among 1..total_pages, and that page's
      offset window holds it; the last page starts on a row that exists. */
  lemma RowPage(total: nat, k: nat)
    requires k < total
    ensures var p := k / RowsPerPage + 1;
            && 1 <= p <= TotalPages(total)
            && Offset(p) <= k < Offset(p) + RowsPerPage
            && (forall q :: 1 <= q && Offset(q) <= k < Offset(q) + RowsPerPage ==> q == p)
    ensures Offset(TotalPages(total)) < total
  {
  }

  function PageUrl(baseUrl: string, page: int): string
  {
    baseUrl + "?page=" + IntToString(page)
  }

  /** `str(request.url).split("?")[0]`. */
  function BaseUrl(url: string): string
  {
    Split(url, "?")[0]
  }

  datatype PageInfo = PageInfo(
    totalRows: nat, totalPages: nat, currentPage: int,
    nextPage: Option<string>, previousPage: Option<string>)

  /** The response fields around the rows. */
  function Paging(url: string, page: int, total: nat): (r: PageInfo)
    ensures r.totalPages == TotalPages(total) && r.currentPage == page && r.totalRows == total
    ensures r.nextPage.Some? <==> page < TotalPages(total)
    ensures r.previousPage.Some? <==> page > 1
  {
    var n := TotalPages(total);
    PageInfo(total, n, page,
             if page < n then Some(PageUrl(BaseUrl(url), page + 1)) else None,
             if page > 1 then Some(PageUrl(BaseUrl(url), page - 1)) else None)
  }

  /** The base of a link built on a base without '?' is that base. */
  lemma BaseOfPageUrl(base: string, page: int)
    requires Avoids(base, '?')
    ensures BaseUrl(PageUrl(base, page)) == base
  {
    var u := PageUrl(base, page);
    assert u[|base|..|base| + 1] == "?";
    assert OccursAt(u, "?", |base|);
    var r := IndexFrom(u, "?", 0);
    forall j | 0 <= j < |base| ensures !OccursAt(u, "?", j) {
      assert u[j..j + 1][0] == base[j];
    }
    assert r == Some(|base|);
    assert u[..|base|] == base;
  }

  /** Following next_page from a page and then previous_page comes back
      to the same base and page, and each link names its page number. */
  lemma LinksRoundTrip(url: string, page: int, total: nat)
    requires Avoids(BaseUrl(url), '?')
    requires page < TotalPages(total)
    ensures var b := BaseUrl(url);
            var next := Paging(url, page, total).nextPage.value;
            && BaseUrl(next) == b
            && next[|b| + 6..] == IntToString(page + 1)
            && ParseInt(next[|b| + 6..]) == Some(page + 1)
            && (page + 1 > 1 ==> Paging(next, page + 1, total).previousPage == Some(PageUrl(b, page)))
  {
    var b := BaseUrl(url);
    var next := PageUrl(b, page + 1);
    BaseOfPageUrl(b, page + 1);
    assert next[|b| + 6..] == IntToString(page + 1);
    ParseIntOfIntToString(page + 1);
  }

  // ---- the route's deterministic core ----

  datatype TableSql = TableSql(joins: seq<string>, select: seq<string>, group: seq<string>, levelCol: string, offset: nat)

  /** get_table up to the queries, on the joins of the shared builder. */
  method AssembleTable(f: Filters, joins: seq<string>, page: int) returns (t: TableSql)
    ensures t.joins == Dedup(joins + LevelJoins(f))
    ensures t.select == SelectLayout(f) && t.group == GroupLayout(f)
    ensures t.levelCol == LevelOf(f).col && t.offset == Offset(page)
  {
    var g := LevelOf(f);
    var allJoins := AppendExtraJoins(joins, g.extraJoins);
    ExtraJoinLines(f);
    var select, group := BuildFields(f);
    t := TableSql(allJoins, select, group, g.col, (Max(page, 1) - 1) * RowsPerPage);
  }
}
