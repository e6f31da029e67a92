# hariss-reports: a Dafny model of the report back end

hariss-reports is the reporting back end of a sales-distribution system. Its
HTTP routes take filter selections and build parameterised SQL. The
selections are date ranges, company/region/area/warehouse/route/salesman
lists, customer facets, item facets, a search type and a data view. The
routes then do the following:

* pick a time granularity (daily, weekly or monthly) and the SQL label and
  ordering expressions for it;
* fold the result rows into item × period pivots;
* write those pivots as Excel sheets with category and grand totals, one
  sheet per selected company, region, route, salesman, … under names cut to
  Excel's 31-character limit and made unique;
* page the sales table, with next and previous links.

This project models the pure core of that back end in Dafny:

* the query-part builders of every report family (sales, item, customer,
  visit, primary order, fridge, comparison, dashboards), each with the WHERE
  fragments, named parameters and joins it produces;
* the granularity choosers and the period helpers: ISO week to date range,
  clipping, display labels, week ranges and sorting;
* the row folds of the sales and item exports, and the sheets they write;
* the sheet-name sanitiser and its uniqueness loop;
* the level-detection chains of the exports, the item dashboard and the
  sales table;
* the join, field and pagination logic of the sales table.

Dates are day ordinals as in Python's `date.toordinal()` (0001-01-01 is day
1). Amounts are `real`. SQL is kept as a small tree of predicates
(`Sql.Pred`) whose rendering gives the fragments the source appends, with
named (`:name`) or positional (`$n`) parameters. A builder that appends step
by step is a `method` proved equal to a reference function
(`QueryParts.Reference`), and lemmas about that reference state the shape
of the query: which fragment appears exactly when which filter is given,
where it appears, and that every parameter it names is bound.

## Model

| member | source | states |
|---|---|---|
| Wrappers.BadRequest | app/dashboard/utils/dashboard_common_helper.py:18 | the failure carries status 400 and exactly the given detail text |
| Wrappers.MapSome | app/dashboard/utils/dashboard_common_helper.py:11-14 | the list comprehension under `try`: a list exactly when every element converts, holding each converted element in order |
| Wrappers.MapAll | app/sales_report/utils/export_helper.py:46 | a comprehension over a raising function: all values in order when every call succeeds, otherwise the failure of the first failing element |
| Text.Strip | sales_report/utils/filter_helper.py:17 | `str.strip()`: the result is no longer than the input and neither starts nor ends with whitespace |
| Text.StripEmpty | sales_report/utils/filter_helper.py:17 | a piece strips to "" exactly when it is all whitespace |
| Text.Lower | app/dashboard/utils/dashboard_common_helper.py:34 | `str.lower()` maps character by character and keeps the length |
| Text.IndexFrom | app/sales_report/utils/export_helper.py:40 | finds the first occurrence of a separator at or after a position, or reports that none exists |
| Text.ContainsIff | app/sales_report/utils/export_helper.py:40 | `sep in s` holds exactly when the separator occurs at some position |
| Text.NotContains | app/sales_report/utils/export_helper.py:40 | a text without the separator's first character does not contain it |
| Text.Split | sales_report/utils/filter_helper.py:17 | `str.split(sep)` always yields at least one piece |
| Text.SplitJoin | sales_report/utils/filter_helper.py:17 | splitting a joined list gives the list back when no piece holds the separator |
| Text.SplitTwo | app/sales_report/utils/export_helper.py:42 | `a + sep + b` splits into exactly `[a, b]` |
| Text.ParseInt | sales_report/utils/filter_helper.py:19 | `int(p)`: it succeeds only on a text that is not blank after stripping |
| Text.ParseSigned | sales_report/utils/filter_helper.py:19 | a minus sign followed by digits parses to the negated decimal value |
| Text.ParseUnsigned | sales_report/utils/filter_helper.py:19 | a digit string parses to its decimal value |
| Text.ParseNegative | sales_report/utils/filter_helper.py:19 | "-" followed by the digits of n > 0 parses to -n |
| Text.IntToString | app/sales_report/utils/export_helper.py:179 | `str(eid)` is non-empty and has no whitespace |
| Text.ParseIntOfIntToString | app/sales_report/utils/export_helper.py:179 | `int(str(i)) == i` for every integer |
| Text.IntToStringInjective | app/sales_report/utils/export_helper.py:179 | distinct ids get distinct fallback names |
| Calendar.ParseIsoDate | app/dashboard/utils/dashboard_common_helper.py:19-23 | a YYYY-MM-DD text parses to a day that lies within Python's date range |
| Calendar.ParseFormat | app/dashboard/utils/dashboard_common_helper.py:19-23 | printing a day as YYYY-MM-DD and parsing it gives the day back |
| Calendar.FormatParse | app/dashboard/utils/dashboard_common_helper.py:19-23 | a text that parses is exactly the printed form of its day |
| Calendar.FromOrdinal | app/dashboard/utils/dashboard_common_helper.py:173-175 | the civil date of a day number is a real date whose ordinal is that number |
| Calendar.FromToOrdinal | app/dashboard/utils/dashboard_common_helper.py:173-175 | ordinal and civil date are inverse conversions |
| Calendar.ToOrdinalInjective | app/dashboard/utils/dashboard_common_helper.py:173-175 | two dates with the same ordinal are the same date, so `(d2 - d1).days` is well defined |
| Calendar.ValidOrdinalInRange | app/dashboard/utils/dashboard_common_helper.py:173-175 | a day number lies in Python's date range exactly when its civil date does |
| Calendar.Week1HoldsFirstThursday | app/sales_report/utils/export_helper.py:156-157 | ISO week 1 starts on a Monday and holds the year's first Thursday |
| Calendar.IsoYearLength | app/sales_report/utils/export_helper.py:156-157 | an ISO year is 52 or 53 weeks long and the next one starts right after it |
| Calendar.FromIsoCalendar | app/sales_report/utils/export_helper.py:156-157 | `date.fromisocalendar(y, w, d)` gives the day `d - 1` days after the Monday of week `w`, and fails outside the valid weeks of the year |
| Calendar.FromIsoCalendarOfWeek | app/sales_report/utils/export_helper.py:156-157 | a valid week's day 1 is its Monday and its day 7 is six days later |
| Calendar.Pad2RoundTrip | app/sales_report/utils/export_helper.py:158 | zero-padded two-digit fields round-trip |
| Calendar.Pad4RoundTrip | app/sales_report/utils/export_helper.py:158 | zero-padded four-digit year fields round-trip |
| Calendar.IsoText | app/sales_report/utils/export_helper.py:158 | `str(date)` is ten characters long, with dashes at positions 4 and 7 |
| Calendar.ParseYearMonth | app/sales_report/utils/export_helper.py:21 | `strptime(x, "%Y-%m")` gives the first day of that month |
| Calendar.ParseYear | app/sales_report/utils/export_helper.py:23 | `strptime(x, "%Y")` gives the first of January of that year |
| Calendar.MonthAbbr | app/sales_report/utils/export_helper.py:43-44 | `%b` is a three-letter month name |
| Calendar.MonthOfAbbr | sales_report/routes/export_xlsx.py:238-241 | `%b` read back: a month exactly when the text is one of the twelve abbreviations in any letter case |
| Calendar.MonthOfAbbrOf | sales_report/routes/export_xlsx.py:238-241 | an abbreviation reads back as its own month |
| Calendar.ParseDayMonthYear | sales_report/routes/export_xlsx.py:238-241 | `strptime` with "%d %b %Y" or "%d-%b-%Y": a parsed text is a day in Python's date range |
| Calendar.ParseDayMonth | sales_report/routes/export_xlsx.py:238-244 | `strptime` with "%d %b" or "%d-%b" then `replace(year=...)`: a parsed text is a day of the given year |
| Calendar.ParseDayMonthYearOf | sales_report/routes/export_xlsx.py:238-245 | a day printed as day, abbreviation and year reads back as that day |
| Calendar.ParseDayMonthOf | sales_report/routes/export_xlsx.py:238-245 | a day printed as day and abbreviation reads back in its own year, except 29 February, which fails because strptime reads a year-less date in 1900 |
| Calendar.DayMon | app/sales_report/utils/export_helper.py:43-44 | `strftime("%d %b")` gives two digits, a space and the month name |
| Calendar.MonYear | app/item_report/utils/item_export_xlsx_helper.py:87 | `strftime("%b %Y")` gives the month name, a space and four year digits |
| Sorting.Sort | app/sales_report/utils/export_helper.py:17-24 | `sorted` with a key: the result is ordered, is a permutation of the input, and is stable: for any key, the elements with that key keep their input order |
| Sorting.InsertTied | app/sales_report/utils/export_helper.py:17-24 | inserting into a sorted list puts the new element before the elements with its key and keeps their order |
| Sorting.SortStrings | sales_report/routes/export_xlsx.py:559 | `sorted` over strings: the result is a permutation in lexicographic order |
| Sorting.StrLeqTotal | sales_report/routes/export_xlsx.py:559 | any two strings are comparable |
| Sorting.StrLeqTransitive | sales_report/routes/export_xlsx.py:559 | string order is transitive |
| Sorting.StrLeqAntisymmetric | sales_report/routes/export_xlsx.py:559 | two strings that are each at most the other are equal |
| Sorting.DedupMembers | sales_report/routes/table.py:92 | `list(dict.fromkeys(xs))` has no duplicates and holds exactly the elements of xs |
| Sorting.DedupOrder | sales_report/routes/table.py:92 | the kept elements appear in the order of their first occurrence |
| Sorting.DedupSnoc | sales_report/routes/table.py:92 | appending a seen element changes nothing; appending a new one adds it at the end |
| Sorting.DedupNoDup | sales_report/routes/table.py:92 | a list without duplicates is unchanged |
| Sorting.DedupIdempotent | sales_report/routes/table.py:92 | deduplicating twice is the same as once |
| Sorting.PickHas | sales_report/routes/export_xlsx.py:647-648 | filtering rows by a mask keeps exactly the rows whose mask bit is set |
| Sql.RenderAll | sales_report/utils/filter_helper.py:35-110 | each WHERE fragment is the rendering of its predicate, in order |
| Sql.WhereTextCons | sales_report/routes/table.py:22 | `" AND ".join(fragments)` is the first fragment followed by " AND " and the join of the rest |
| Requests.KeepNonBlank | sales_report/utils/filter_helper.py:17 | keeps only the stripped pieces that are not blank |
| Requests.ParseEach | sales_report/utils/filter_helper.py:18-21 | a list exactly when every piece is an integer, holding each piece's value in order |
| Requests.ParseCsvIds | sales_report/utils/filter_helper.py:14-21 | `parse_csv_ids`: None for an absent or empty text; otherwise a list exactly when every non-blank comma-separated piece is an integer, holding the pieces' values in order |
| Requests.KeepNonBlankOfIds | sales_report/utils/filter_helper.py:17 | the printed forms of integers are never blank, so none is dropped |
| Requests.IdTextAvoidsComma | sales_report/utils/filter_helper.py:17 | a printed integer holds no comma |
| Requests.ParseEachIds | sales_report/utils/filter_helper.py:18-21 | parsing the printed ids gives the ids |
| Requests.ParseCsvIdsRoundTrip | sales_report/utils/filter_helper.py:14-21 | a non-empty id list written as "1,2,3" parses back to itself (the same function is repeated in every report helper) |
| Requests.BlankPiecesGiveEmpty | sales_report/utils/filter_helper.py:14-21 | a text of only commas and blanks parses to the empty list, not to None |
| Requests.ValidateWithSearchType | sales_report/utils/filter_helper.py:23-30 | `validate_mandatory` with a search type: passes exactly when the search type is given and both dates parse; fails with 400, and with the "required" detail exactly when a field is missing (same in item_report/utils/common_helper.py, customer_common_helper.py and sales_common_helper.py) |
| Requests.ValidateDates | app/dashboard/utils/dashboard_common_helper.py:16-23 | `validate_mandatory` on dates only: passes exactly when both dates parse; fails with 400, and with the given "required" detail exactly when a date is missing (same in the customer dashboard, visit, primary order, fridge and promotion helpers) |
| Granularity.ExportGranularity | app/sales_report/utils/export_helper.py:7-14 | daily exactly when the span is at most 62 days, monthly exactly when it exceeds 183, never yearly |
| Granularity.DashboardGranularity | app/dashboard/utils/dashboard_common_helper.py:172-197 | daily exactly when the inclusive day count is at most 31, monthly exactly when it exceeds 183, never yearly |
| Granularity.ExportMonotone | app/sales_report/utils/export_helper.py:7-14 | a longer span never gives a finer export granularity |
| Granularity.DashboardMonotone | app/dashboard/utils/dashboard_common_helper.py:172-197 | a longer span never gives a finer dashboard granularity |
| Granularity.RulesAgreement | app/item_report/utils/item_export_xlsx_helper.py:6-13 | the export rule and the dashboard rule agree exactly on spans of at most 30, 63 to 182, or at least 184 days |
| Granularity.ChooseForColumn | app/dashboard/utils/dashboard_common_helper.py:172-197 | `choose_granularity`: the dashboard granularity; day labels and day order when daily, "DD Mon - DD Mon" labels ordered by week start when weekly, month labels ordered by month start when monthly, all over the given date column (the same chooser recurs in item_report/utils/common_helper.py:29-56, cust_dash_helper.py:45-72, visit_common_helper.py:32-59, pmry_ord_common_helper.py:28-56, customer_sales_dashboard_helper.py:6-36, app/sales_report/utils/dashboard_helper.py:4-31 and load_unload_common_helper.py:16-41 with their own columns and month styles) |
| Granularity.ChooseForText | app/dashboard/utils/dashboard_common_helper.py:172-175 | the chooser on date texts: a ValueError unless both parse, otherwise the choice for the parsed days |
| Granularity.WeekStart | app/dashboard/utils/dashboard_common_helper.py:186 | `DATE_TRUNC('week', d)` is the Monday on or before d, at most six days earlier |
| Granularity.MonthStart | app/dashboard/utils/dashboard_common_helper.py:193 | `DATE_TRUNC('month', d)` is the first day of d's month |
| Granularity.WeeklyBucket | app/dashboard/utils/dashboard_common_helper.py:180-186 | in weekly mode a row's label is the Monday and Sunday of its week, and the row lies within that week |
| Granularity.KeyDeterminesLabel | app/dashboard/utils/dashboard_common_helper.py:176-195 | rows that share an ORDER BY key share a period label, at every granularity |
| Granularity.WeekKeyDeterminesLabel | app/dashboard/utils/dashboard_common_helper.py:180-186 | the same week start gives the same week label |
| Granularity.MonthKeyDeterminesLabel | app/dashboard/utils/dashboard_common_helper.py:190-193 | the same month start gives the same month label |
| Granularity.MonthlyBucket | app/dashboard/utils/dashboard_common_helper.py:193 | two days share a month bucket exactly when they have the same year and month |
| ExportPeriods.DateTextAvoids | app/sales_report/utils/export_helper.py:158 | a printed date holds no character other than digits and dashes, so it never contains the "_to_" separator |
| ExportPeriods.SplitRangeLabel | app/sales_report/utils/export_helper.py:42 | a "start_to_end" label splits back into its two dates and contains the separator |
| ExportPeriods.IsoWeekToRange | app/sales_report/utils/export_helper.py:150-160 | `iso_week_to_range`: either the input unchanged (the bare `except`) or the label of a Monday-to-Sunday week |
| ExportPeriods.IsoWeekEnds | app/sales_report/utils/export_helper.py:156-158 | days 1 and 7 of an ISO week are a Monday and the Sunday six days later |
| ExportPeriods.IsoWeekToRangeOfWeek | app/sales_report/utils/export_helper.py:150-158 | "YYYY-WW" for a valid ISO week becomes the "Monday_to_Sunday" label of that week |
| ExportPeriods.IsoWeekFields | app/sales_report/utils/export_helper.py:155 | "YYYY-WW" splits on "-" into the two fields, and `int` reads back year and week |
| ExportPeriods.IsoWeekToRangeOfFields | app/sales_report/utils/export_helper.py:155-158 | any text whose two "-" fields name a valid ISO week maps to that week's label |
| ExportPeriods.IsoWeekToRangeRejectsWeek53 | app/sales_report/utils/export_helper.py:159-160 | week 53 of a 52-week year makes `fromisocalendar` raise, so the label comes back unchanged |
| ExportPeriods.KeyOrder | app/sales_report/utils/export_helper.py:17-24 | the sort key of every granularity is a total, transitive order |
| ExportPeriods.SortPeriods | app/sales_report/utils/export_helper.py:17-24 | `sort_periods`: a ValueError exactly when some label does not parse for the granularity; otherwise a permutation of the labels in ascending date order (the same function is app/item_report/utils/item_export_xlsx_helper.py:16-23) |
| ExportPeriods.RangeLabelKey | app/sales_report/utils/export_helper.py:19 | a weekly label sorts by its start date |
| ExportPeriods.FormatWeekDisplay | app/sales_report/utils/export_helper.py:39-45 | a label without "_to_" is returned as it is; a failure is a ValueError |
| ExportPeriods.FormatRangeDisplay | app/sales_report/utils/export_helper.py:39-45 | "start_to_end" is shown as "DD Mon - DD Mon" of its two days |
| ExportPeriods.GenerateWeekRanges | app/sales_report/utils/export_helper.py:121-137 | `generate_week_ranges`: OverflowError exactly when the day arithmetic passes date.max (to_date is date.max, or the last window's `cur + 6` passes it); no range for an empty span; otherwise ⌊span/7⌋+1 ranges that start at from_date, end at to_date, are 7 days long except possibly the last, and follow each other without gap |
| ItemExportHelper.RangeDays | app/item_report/utils/item_export_xlsx_helper.py:47-49 | the two dates of a "_to_" label, or the ValueError that unpacking or `strptime` raises |
| ItemExportHelper.RangeDaysOfLabel | app/item_report/utils/item_export_xlsx_helper.py:47-49 | a label built from two days gives those days back |
| ItemExportHelper.ClipPeriodToRange | app/item_report/utils/item_export_xlsx_helper.py:40-67 | `clip_period_to_range`: a weekly label becomes the label of its dates clamped to the range; a daily label is kept inside the range and dropped (None) outside it; monthly, yearly and other labels pass unchanged; only weekly and daily labels can raise |
| ItemExportHelper.ClipWeekWithin | app/item_report/utils/item_export_xlsx_helper.py:46-50 | a clipped week lies inside the requested range, and a week already inside it is unchanged |
| ItemExportHelper.ClipIdempotent | app/item_report/utils/item_export_xlsx_helper.py:40-67 | clipping a clipped label changes nothing |
| ItemExportHelper.FormatPeriodLabel | app/item_report/utils/item_export_xlsx_helper.py:71-92 | `format_period_label`: weekly as the week display, daily as "DD Mon", monthly as "Mon YYYY", yearly unchanged; daily and monthly fail exactly when the label does not parse |
| ItemExportHelper.FormatClippedWeek | app/item_report/utils/item_export_xlsx_helper.py:76-80 | the display of a clipped week shows the clamped first and last day |
| ItemExportHelper.FormatDay | app/item_report/utils/item_export_xlsx_helper.py:82-84 | a daily label is displayed as "DD Mon" of its day |
| AggregatedSheet.PrettyPeriods | app/sales_report/utils/export_helper.py:46 | the header labels are the week displays of the periods, in order, or the ValueError of the first that fails |
| AggregatedSheet.WriteItemRows | app/sales_report/utils/export_helper.py:58-71 | the item rows are each item's cells per period and its row total, in the given order |
| AggregatedSheet.CategoryTotals | app/sales_report/utils/export_helper.py:74-79 | the categories in first-seen order, each mapped to its per-period column sums |
| AggregatedSheet.NewCategoryZeros | app/sales_report/utils/export_helper.py:75 | a category not yet seen starts from zeros for every period |
| AggregatedSheet.CategoryValuesStep | app/sales_report/utils/export_helper.py:77-79 | adding one item's cells to its category keeps the running per-category sums exact |
| AggregatedSheet.OtherCategoryUnchanged | app/sales_report/utils/export_helper.py:77-79 | an item never changes the sums of another category |
| AggregatedSheet.WriteCategoryRows | app/sales_report/utils/export_helper.py:83-97 | one row per category with its per-period sums and their total |
| AggregatedSheet.GrandTotals | app/sales_report/utils/export_helper.py:100-103 | the grand-total row holds each period's column sum over all items |
| AggregatedSheet.WriteAggregatedSheet | app/sales_report/utils/export_helper.py:27-118 | `write_aggregated_sheet`: fails with ValueError exactly when a period label cannot be displayed; otherwise writes the header, the sorted item rows, a blank row, the category rows and the grand-total row |
| AggregatedSheet.ItemRowsOrdered | app/sales_report/utils/export_helper.py:55-58 | one row per item, ordered by category, then name, then code |
| AggregatedSheet.ItemRowsIndex | app/sales_report/utils/export_helper.py:58-71 | row i is the row of item i |
| AggregatedSheet.CategoryRowsIndex | app/sales_report/utils/export_helper.py:83-97 | row j is the row of category j |
| AggregatedSheet.SheetTotalsAgree | app/sales_report/utils/export_helper.py:100-114 | the last row is the total row; its grand total equals both the sum of the category totals and the sum of the item row totals, and each period cell equals the sum over categories |
| Pivot.AddCells | app/sales_report/utils/export_helper.py:77-79 | adds an item's value for each column to the running sums |
| Pivot.SumLoop | app/sales_report/utils/export_helper.py:59 | the loop computes `sum(...)` |
| Pivot.RowOf | app/sales_report/utils/export_helper.py:59-70 | an item's values per column (0 when absent) and their total |
| Pivot.SumAdd | app/sales_report/utils/export_helper.py:100-114 | summing element-wise sums is summing the sums |
| Pivot.ColumnTotalStep | app/sales_report/utils/export_helper.py:101-103 | a column total grows by each item's cell in turn |
| Pivot.CategoryColumnStep | app/sales_report/utils/export_helper.py:77-79 | a category's column sum grows only by the items of that category |
| Pivot.CategoryColumnAbsent | app/sales_report/utils/export_helper.py:77-79 | a category with no item has zero sums |
| Pivot.CategoriesStep | app/sales_report/utils/export_helper.py:75-77 | the category list grows by a new category at the end and ignores a known one |
| Pivot.CoveringCategoriesPartitionColumn | app/sales_report/utils/export_helper.py:74-103 | summing a column per category over categories that cover every item gives the column total |
| Pivot.CategoriesPartitionColumn | app/sales_report/utils/export_helper.py:74-103 | the category rows of a column add up to its grand-total cell |
| Pivot.GrandTotalIsSumOfRowTotals | app/sales_report/utils/export_helper.py:59-114 | the sum of the grand-total row equals the sum of the item row totals |
| Pivot.GrandTotalIsSumOfCategoryTotals | app/sales_report/utils/export_helper.py:89-114 | the sum of the grand-total row equals the sum of the category totals |
| Pivot.SwapCategorySums | app/sales_report/utils/export_helper.py:89-96 | summing categories then periods equals summing periods then categories |
| Pivot.KeyLeqTotal | app/sales_report/utils/export_helper.py:55 | the (category, name, code) order is total |
| Pivot.KeyLeqTransitive | app/sales_report/utils/export_helper.py:55 | the (category, name, code) order is transitive |
| Pivot.EntryOrder | app/sales_report/utils/export_helper.py:55 | the sort key on pivot entries is a total, transitive order |
| Pivot.SortItems | app/sales_report/utils/export_helper.py:55 | `sorted(map_items.items(), key=(category, name, code))`: a permutation of the items in key order |
| PivotFold.TouchedStep | sales_report/routes/export_xlsx.py:278-279 | a cell exists after a row exactly when it existed before or the row created it |
| PivotFold.PivotOfOrder | sales_report/routes/export_xlsx.py:278-279 | the item keys of a folded map are the row keys, deduplicated in first-seen order (dict insertion order) |
| PivotFold.PivotOfCells | sales_report/routes/export_xlsx.py:278-279 | a cell exists exactly when some row contributed to it, and its value is the sum of those rows' values |
| PivotFold.EntriesOfPivot | sales_report/routes/export_xlsx.py:278-279 | the entries of a folded map list the keys in first-seen order, each with the summed cells |
| PivotFold.PivotOfSnoc | sales_report/routes/export_xlsx.py:278-279 | folding one more row is one more `setdefault` and `+=` |
| PivotFold.ColumnSetHas | sales_report/routes/export_xlsx.py:276 | `periods_set` holds exactly the periods some row produced |
| PivotFold.ColumnSetSnoc | sales_report/routes/export_xlsx.py:276 | one more row adds its period to the set |
| PivotFold.DedupColumns | sales_report/routes/export_xlsx.py:303 | `list(periods_set)` has no duplicates and holds exactly the set's periods |
| PivotFold.AddRow | sales_report/routes/export_xlsx.py:278-279 | the nested `setdefault(...)` and `+=` on a map add one contribution |
| EntityFold.AddAllMaps | sales_report/routes/export_xlsx.py:286-296 | adding a row under distinct entity keys updates exactly those entities' maps |
| EntityFold.AddAllOrder | sales_report/routes/export_xlsx.py:286-296 | entity keys keep first-seen order |
| EntityFold.AddAllKeysOnly | sales_report/routes/export_xlsx.py:286-296 | only the targeted entity keys are added |
| EntityFold.FanOutSpec | sales_report/routes/export_xlsx.py:286-301 | the entity map lists every targeted entity once, in first-seen order, and each entity's map is the fold of exactly the rows routed to it |
| EntityFold.RepresentsStep | sales_report/routes/export_xlsx.py:286-301 | one more routed row keeps the entity map exact |
| EntityFold.ContribsForMembers | sales_report/routes/export_xlsx.py:286-301 | every contribution in an entity's map comes from a row routed to that entity |
| EntityFold.AddToEntity | sales_report/routes/export_xlsx.py:300-301 | `entity_map.setdefault(ent, {})...` adds a row to one entity's map |
| SheetNames.SafeSheetName | app/sales_report/utils/export_helper.py:140-146 | `_safe_sheet_name`: "Unknown" for an absent or empty name; never longer than 31 characters |
| SheetNames.CleanName | app/sales_report/utils/export_helper.py:143-146 | the sanitised, collapsed, stripped and cut name is at most 31 characters |
| SheetNames.Cut | app/sales_report/utils/export_helper.py:146 | `safe[:31]` is a prefix of at most 31 characters and leaves shorter names unchanged |
| SheetNames.CollapseProps | app/sales_report/utils/export_helper.py:144 | `re.sub(r'\s+', ' ', …)` never lengthens, leaves no two spaces in a row, keeps only spaces and original characters, and is all blank exactly when the input is |
| SheetNames.CollapseKeepsClean | app/sales_report/utils/export_helper.py:143-144 | collapsing whitespace brings back none of the characters Excel forbids |
| SheetNames.SafeSheetNameSlice | app/sales_report/utils/export_helper.py:143-146 | the result is a contiguous piece of the collapsed name, empty exactly when that strips to nothing, and never starts with a blank |
| SheetNames.SafeSheetNameClean | app/sales_report/utils/export_helper.py:140-146 | at most 31 characters, none of `\ / * ? : [ ]`, no double spaces, no leading blank |
| SheetNames.CollapsedClean | app/sales_report/utils/export_helper.py:143-144 | the sanitised and collapsed name has no forbidden character and no double space |
| SheetNames.SliceClean | app/sales_report/utils/export_helper.py:145-146 | any piece of a clean name is clean |
| SheetNames.SafeSheetNameEmpty | app/sales_report/utils/export_helper.py:140-146 | the result is "" exactly when the name is non-empty and all whitespace |
| SheetNames.CollapsedAllSpace | app/sales_report/utils/export_helper.py:143-144 | sanitising and collapsing give an all-blank name exactly when the name was all blank |
| SheetNames.CandidateKeyInjective | sales_report/routes/export_xlsx.py:621-623 | two different clash numbers never give names equal up to case |
| SheetNames.CandidateExceedsLimit | sales_report/routes/export_xlsx.py:617-625 | a clash on a 31-character name yields a suffixed name longer than 31 characters (the suffix is added after the cut) |
| SheetNames.LongNameFillsLimit | app/sales_report/utils/export_helper.py:146 | a long plain name is cut to exactly 31 characters |
| SheetNames.SheetNamer.Sheet | sales_report/routes/export_xlsx.py:617-625 | `_sheet`: the returned name is not yet used (ignoring case), is then recorded, and is the safe name itself or "safe (k)" for the first k ≥ 2 whose lower-cased form is free |
| SheetNames.SheetNamer.Claim | sales_report/routes/export_xlsx.py:620-625 | the while loop: same promise for a given base name, ending because the used set is finite |
| SheetNames.SheetNamer.constructor | sales_report/routes/export_xlsx.py:455-615 | "summary" is the only name taken at the start |
| SheetNames.TakenStep | sales_report/routes/export_xlsx.py:621-623 | a loop step that finds its candidate taken extends the run of taken candidates |
| SheetNames.TriedStep | sales_report/routes/export_xlsx.py:621-623 | each new candidate differs from all tried before, so the loop makes progress |
| Hierarchy.FirstSelected | app/sales_report/utils/export_helper.py:236-251 | the first level of a precedence table whose list is non-empty, or the fallback when none is |
| Hierarchy.FirstSelectedFrom | app/sales_report/utils/export_helper.py:236-251 | the chain read one test at a time |
| Hierarchy.GetDeepestPrecedence | app/sales_report/utils/export_helper.py:236-251 | `get_deepest`: customer > customer category > customer channel > route or salesman > warehouse > area > region, else company |
| Hierarchy.ItemGetDeepestPrecedence | app/item_report/utils/item_export_xlsx_helper.py:98-107 | the item export's `get_deepest`: route > warehouse > area > region, else company |
| Hierarchy.DefaultLevelChain | app/sales_report/utils/export_helper.py:187-232 | `determine_default_entities`: customer > customer category > customer channel > salesman > route > warehouse > area > region, else company |
| Hierarchy.EnsureMap | app/sales_report/utils/export_helper.py:175-185 | `_ensure_map`: a known non-empty map keeps its names and gains `str(id)` for each missing id; otherwise every id maps to `str(id)` |
| Hierarchy.DetermineDefaultEntities | app/sales_report/utils/export_helper.py:161-232 | the default level and its ids (company falls back to [1]); the ids are non-empty, and every id has a name, the known one or `str(id)` |
| ExportRequest.ParseDates | sales_report/routes/export_xlsx.py:24-28 | both dates parse, or 400 "Dates must be YYYY-MM-DD" |
| ExportRequest.ParseDatesOfText | sales_report/routes/export_xlsx.py:24-26 | printed dates parse back to the same days |
| ExportRequest.SearchType | sales_report/routes/export_xlsx.py:31-33 | an absent or empty search type means "quantity"; otherwise it is accepted exactly when its lower-cased form is "quantity" or "amount", else 400 |
| ExportRequest.SearchTypeIgnoresCase | sales_report/routes/export_xlsx.py:31 | the search type does not depend on letter case |
| ExportRequest.LowerIdempotent | sales_report/routes/export_xlsx.py:31 | lower-casing twice is lower-casing once |
| ExportRequest.CompanyIds | sales_report/routes/export_xlsx.py:60-61 | company ids default to [1] and are never empty |
| ExportRequest.NamedGranularity | sales_report/routes/export_xlsx.py:63 | a name is recognised exactly when it is one of daily, weekly, monthly, yearly |
| ExportRequest.Dataview | sales_report/routes/export_xlsx.py:71-75 | a recognised lower-cased dataview wins; otherwise the export rule chooses by span |
| ExportRequest.DataviewOfName | sales_report/routes/export_xlsx.py:72-73 | naming a granularity in any case selects it |
| ExportRequest.NamedViewIsNotDefault | sales_report/routes/export_xlsx.py:66-73 | a recognised dataview never counts as the default view |
| ExportRequest.NamesAreLetters | sales_report/routes/export_xlsx.py:63 | the recognised names are lower-case letters and differ from "default" |
| ExportRequest.AddAny | sales_report/routes/export_xlsx.py:128-133 | `_add`: a non-empty list appends "col = ANY($idx)", its parameter, and advances idx; an empty one changes nothing |
| ExportRequest.AddFilter | sales_report/routes/export_xlsx.py:136-145 | one more `_add` call extends the assembled clause by one filter |
| ExportRequest.AssemblePrefix | sales_report/routes/export_xlsx.py:136-145 | the calls are applied in order |
| ExportRequest.NonEmpty | sales_report/routes/export_xlsx.py:130 | the filters that fire are those with a non-empty list |
| ExportRequest.NonEmptyKeeps | sales_report/routes/export_xlsx.py:130 | every filter with a non-empty list fires |
| ExportRequest.AssembleShape | sales_report/routes/export_xlsx.py:124-145 | the clause keeps its start and gains, per firing filter in order, "col = ANY($n)" with n counting up and its ids as the n-th parameter |
| ExportRequest.AllPositionsSnoc | sales_report/routes/export_xlsx.py:131 | the placeholders of a longer clause are those of the shorter one followed by the new ones |
| ExportRequest.StartConsecutive | sales_report/routes/export_xlsx.py:124-126 | the date clause uses $1 and $2, and idx starts at 3 |
| ExportRequest.AssembleConsecutive | sales_report/routes/export_xlsx.py:124-145 | the placeholders stay numbered $1, $2, … without gap and idx stays one past the last |
| ExportRequest.FixedConsecutive | sales_report/routes/export_xlsx.py:160-161 | a fixed fragment without placeholder keeps the numbering |
| ExportRequest.AssembledWhere | sales_report/routes/export_xlsx.py:124-145 | the clause starts with the date range on $1 and $2; there is one parameter more than filter fragments, plus the two dates |
| ExportRequest.AssembledFilters | sales_report/routes/export_xlsx.py:124-145 | every filter with ids appears as "col = ANY($n)" with its ids bound at position n |
| ExportRequest.AssembledParts | sales_report/routes/export_xlsx.py:124-145 | every fragment after the first comes from a filter with ids, bound at its own position |
| ExportRequest.NonEmptyHead | sales_report/routes/export_xlsx.py:136 | a first filter with ids fires first |
| ExportRequest.AssembleFirst | sales_report/routes/export_xlsx.py:136 | a first filter with ids takes $3 |
| SalesExportRows.SplitWeek | sales_report/routes/export_xlsx.py:222-233 | the separator cascade always gives at least one piece |
| SalesExportRows.FindDateShape | sales_report/routes/export_xlsx.py:249 | `re.search(r"\d{4}-\d{2}-\d{2}")` finds the first place the pattern occurs, or reports none |
| SalesExportRows.TryParseDate | sales_report/routes/export_xlsx.py:236-255 | `_try_parse_date`: the five formats in order, then the first dddd-dd-dd in the text; a parsed date is a valid day |
| SalesExportRows.DateOr | sales_report/routes/export_xlsx.py:258-260 | `_try_parse_date(s) or fallback` is a valid day |
| SalesExportRows.ConvertedKey | sales_report/routes/export_xlsx.py:257-269 | with fewer than two pieces the text is kept; otherwise the key is a "start_to_end" label whose end is at most to_date |
| SalesExportRows.DateTextNoSpace | sales_report/routes/export_xlsx.py:258 | a printed date holds no blank, so stripping keeps it |
| SalesExportRows.SplitWeekOfRange | sales_report/routes/export_xlsx.py:224-225 | a "start_to_end" label splits into its two dates |
| SalesExportRows.TryParseDateOfText | sales_report/routes/export_xlsx.py:238-245 | a printed date parses to its own day, so the fallback is not used |
| SalesExportRows.TryParseDayMonthYear | sales_report/routes/export_xlsx.py:236-245 | a day printed as "%d %b %Y" or "%d-%b-%Y" parses to that day |
| SalesExportRows.TryParseDayMonth | sales_report/routes/export_xlsx.py:236-245 | a day printed as "%d %b" or "%d-%b" parses to that day in from_date's year, and 29 February parses to nothing |
| SalesExportRows.TryParseNoSuchDay | sales_report/routes/export_xlsx.py:236-255 | a "%d %b" text naming a day that does not exist (such as "30 Feb") parses to nothing, so the caller falls back |
| SalesExportRows.FirstFormat | sales_report/routes/export_xlsx.py:236-247 | the format loop gives nothing exactly when no format parses the text |
| SalesExportRows.FirstFormatAt | sales_report/routes/export_xlsx.py:236-247 | the loop returns the date of the first format that parses the text |
| Calendar.ParseDayMonthNoSuchDay | sales_report/routes/export_xlsx.py:236-245 | strptime with "%d %b" rejects a day that does not exist in its default year 1900 |
| SalesExportRows.ConvertedKeyOfDayMon | sales_report/routes/export_xlsx.py:225-266 | a "%d %b - %d %b" label converts to the range of its two days, with the end cut to to_date |
| SalesExportRows.ConvertedKeyOfRange | sales_report/routes/export_xlsx.py:257-266 | a week label keeps its start and has its end cut to to_date |
| SalesExportRows.WeeklyKeyOfIsoWeek | sales_report/routes/export_xlsx.py:218-266 | a weekly row "YYYY-WW" is filed under its Monday and its Sunday cut to to_date |
| SalesExportRows.WeeklyKeyOfLabel | sales_report/routes/export_xlsx.py:218-266 | any raw period that maps to a week is filed under that week cut to to_date |
| SalesExportRows.PeriodFinalOfIsoWeek | sales_report/routes/export_xlsx.py:216-272 | a row's `period_final` in weekly mode is its ISO week cut to to_date |
| SalesExportRows.WeeklyKeyPassThrough | sales_report/routes/export_xlsx.py:232-269 | a raw period that is no ISO week and has no separator is kept as it is |
| SalesExportRows.PeriodsOfMembers | sales_report/routes/export_xlsx.py:276 | `periods_set` holds exactly the rows' final periods |
| SalesExportRows.ContributionsSnoc | sales_report/routes/export_xlsx.py:204-279 | one more row adds its contribution at the end |
| SalesExportRows.TargetsSpec | sales_report/routes/export_xlsx.py:285-301 | a row goes to no entity twice; for a single-entity level it goes to its entity id exactly when the row has that column; for route/salesman it goes to ("route", id) and ("salesman", id) exactly when that list was selected and the id is truthy |
| SalesExportRows.FoldRows | sales_report/routes/export_xlsx.py:198-301 | the row loop: the summary map is the fold of all rows' contributions, the company map equals it, the period set is the rows' final periods, and the entity map is the fan-out of the routed rows |
| SalesExportRows.FoldStep | sales_report/routes/export_xlsx.py:204-301 | one pass of the loop body keeps all four structures exact |
| SalesExportRows.RoutedSnoc | sales_report/routes/export_xlsx.py:285-301 | one more row adds its targets and contribution at the end |
| SalesExportRows.AddTargets | sales_report/routes/export_xlsx.py:286-296 | adds one contribution under each target |
| SalesExportRows.SummaryCells | sales_report/routes/export_xlsx.py:278-279 | the summary map lists item keys in first-seen row order and each cell is the sum of the values of the rows filed there |
| SalesExportRows.EntityPivots | sales_report/routes/export_xlsx.py:285-301 | entities appear in first-seen order and each entity's map is the fold of exactly its rows |
| SalesDefaultView.DefaultColumnIsSelected | sales_report/routes/export_xlsx.py:88-483 | the corrected id column of the default level is always one the query selects |
| SalesDefaultView.DefaultColumnAsWrittenMissesChannel | sales_report/routes/export_xlsx.py:104-483 | for a customer-channel request, `entity_type + "_id"` names "customer_channel_id", which the query does not select |
| SalesDefaultView.DefaultColumnAsWrittenAgrees | sales_report/routes/export_xlsx.py:104-483 | the column the code reads agrees with the column the query selects for every level except customer channels |
| SalesDefaultView.DefaultContributions | sales_report/routes/export_xlsx.py:471-487 | only rows whose entity is among the default ids contribute, under that entity |
| SalesDefaultView.DefaultContributionsMissingColumn | sales_report/routes/export_xlsx.py:483-485 | when no row has the column, nothing contributes |
| SalesDefaultView.ChannelViewAsWrittenIsEmpty | sales_report/routes/export_xlsx.py:481-487 | as written, the customer-channel default view gets no contribution at all |
| SalesDefaultView.DefaultCells | sales_report/routes/export_xlsx.py:485-487 | every default-map cell is the sum of its rows, and is zero for an entity outside the ids |
| SalesDefaultView.SumWhereOtherColumn | sales_report/routes/export_xlsx.py:485-487 | an entity no row names sums to zero |
| SalesDefaultView.DefaultContributionsSnoc | sales_report/routes/export_xlsx.py:471-487 | one more row adds its contribution exactly when its entity is selected |
| SalesDefaultView.BuildDefaultMap | sales_report/routes/export_xlsx.py:469-487 | the loop builds the fold of the default contributions |
| SalesDefaultView.AddCategoryDistinct | sales_report/routes/export_xlsx.py:564-573 | each category row adds its column to each selected entity's total |
| SalesDefaultView.AddCategoryOthers | sales_report/routes/export_xlsx.py:564-573 | entities outside the ids are untouched |
| SalesDefaultView.EntityTotalsSum | sales_report/routes/export_xlsx.py:556-578 | each entity's total is the sum of its category rows |
| SalesDefaultView.SortedCategoriesSpec | sales_report/routes/export_xlsx.py:559 | the category rows are sorted, without duplicates, and list exactly the items' categories |
| SalesDefaultView.DefaultSheetTotals | sales_report/routes/export_xlsx.py:583-590 | the last row is the total row; its cells are each entity's column sum and its total equals both the grand total and the sum of the item row totals |
| SalesDefaultView.WriteEntityItemRows | sales_report/routes/export_xlsx.py:509-536 | one row per item with its entity cells and total, and the categories in first-seen order |
| SalesDefaultView.CategoryColumnLoop | sales_report/routes/export_xlsx.py:566-569 | the inner loop sums one category's column for one entity |
| SalesDefaultView.CategoryStep | sales_report/routes/export_xlsx.py:564-574 | one entity more extends the category row and the entity totals |
| SalesDefaultView.WriteCategoryRow | sales_report/routes/export_xlsx.py:560-578 | a category row holds its column sums and their total, and the entity totals grow by them |
| SalesDefaultView.WriteEntityCategoryRows | sales_report/routes/export_xlsx.py:556-578 | the category rows, the per-entity totals and the grand total as sums over categories |
| SalesDefaultView.WriteDefaultView | sales_report/routes/export_xlsx.py:457-590 | the default-view sheet: the folded map written as header, item rows, category rows and total row |
| SalesExport.Normalise | sales_report/routes/export_xlsx.py:24-85 | bad dates give 400 "Dates must be YYYY-MM-DD", else a bad search type gives its 400; otherwise the settings hold the parsed days, the search type, company ids defaulted to [1], the default-view flag, the data view and the deepest level |
| SalesExport.BuildWhere | sales_report/routes/export_xlsx.py:124-163 | the WHERE fragments and positional parameters are the reference clause |
| SalesExport.AddHierarchyFilters | sales_report/routes/export_xlsx.py:136-141 | the first six `_add` calls |
| SalesExport.SalesWhereShape | sales_report/routes/export_xlsx.py:124-163 | the clause opens with the date range on $1 and $2 and the company filter on $3 (never empty); numbering has no gap; "total_amount > 0" is present exactly for quantity without free goods |
| SalesExport.PeriodListSpec | sales_report/routes/export_xlsx.py:303 | the period list has no duplicates and holds exactly the period set |
| SalesExport.CompanyMask | sales_report/routes/export_xlsx.py:647-648 | one flag per row |
| SalesExport.CompanyContributionsMembers | sales_report/routes/export_xlsx.py:646-654 | a company sheet holds exactly the contributions of the rows of that company, each keyed as the loop keys it (a weekly row under its full week) |
| SalesExport.CompanyContributionsSnoc | sales_report/routes/export_xlsx.py:647-654 | one more row counts only when it belongs to the company |
| SalesExport.CompanyColumnsListed | sales_report/routes/export_xlsx.py:652-657 | with the week key cut as in the row loop (the corrected loop), every company contribution falls on a column of the sheet |
| SalesExport.CompanyAsWrittenOffWeekly | sales_report/routes/export_xlsx.py:646-657 | outside the weekly view the loop as written keys rows as the summary does, so every company contribution falls on a column |
| SalesExport.CompanyWeekAsWrittenListed | sales_report/routes/export_xlsx.py:652 | a week that ends by to_date gets a listed column from the loop as written |
| SalesExport.CompanyWeekAsWrittenMissed | sales_report/routes/export_xlsx.py:652 | as written, a row of a week cut by to_date is filed under the full week, which is not a column, so it is lost from the company sheet |
| SalesExport.AsWrittenFullWeek | sales_report/routes/export_xlsx.py:652 | the company loop files a weekly row under the full Monday-to-Sunday week |
| SalesExport.SummaryCutWeek | sales_report/routes/export_xlsx.py:262-266 | the row loop files the same row under the week cut to to_date |
| SalesExport.PeriodListOfOne | sales_report/routes/export_xlsx.py:276-303 | one row gives the one-period list |
| SalesExport.RangeLabelEnds | sales_report/routes/export_xlsx.py:266 | labels with different ends differ |
| SalesExport.CompanyPivot | sales_report/routes/export_xlsx.py:646-654 | the loop builds the fold of the company's contributions, keyed as written |
| SalesExport.NameSheet | sales_report/routes/export_xlsx.py:617-630 | a sheet keeps its rows and gets a fresh name derived from the safe name |
| SalesExport.CompanySheets | sales_report/routes/export_xlsx.py:642-666 | one sheet per company id, in order, each written from that company's rows as the loop keys them and named after it |
| SalesExport.CompanySheetOf | sales_report/routes/export_xlsx.py:644-666 | one company's sheet and its fresh name |
| SalesExport.KindIds | sales_report/routes/export_xlsx.py:670-673 | the ids of the entity keys of one kind |
| SalesExport.KindIdsCover | sales_report/routes/export_xlsx.py:670-673 | every key of that kind contributes its id |
| SalesExport.EntityPivotsComplete | sales_report/routes/export_xlsx.py:286-301 | every listed entity has a map |
| SalesExport.EntitySheets | sales_report/routes/export_xlsx.py:627-640 | `_add`: one sheet per entity, in order, written from its map and named after it |
| SalesExport.RouteSalesmanSheets | sales_report/routes/export_xlsx.py:668-674 | the route sheets when routes were selected, then the salesman sheets when salesmen were |
| SalesExport.RowsOfAppend | sales_report/routes/export_xlsx.py:668-674 | sheets written one after the other keep their contents |
| SalesExport.EntitySheetOf | sales_report/routes/export_xlsx.py:628-640 | one entity's sheet and its fresh name |
| SalesExport.Export | sales_report/routes/export_xlsx.py:23-687 | `export_dynamic_report`: its 400s first; 404 "No data found" for no rows; a ValueError when periods do not sort or display; otherwise "summary" first, with distinct names, holding the default view alone or the summary sheet followed by the level's sheets |
| SalesExport.WriteDefaultExport | sales_report/routes/export_xlsx.py:457-490 | the default-view sheet over the column the code names, `entity_type + "_id"` |
| SalesExport.WriteWorkbook | sales_report/routes/export_xlsx.py:604-677 | the summary sheet then the level sheets, all names distinct, or the ValueError of a period label |
| SalesExport.WorkbookRows | sales_report/routes/export_xlsx.py:604-677 | the summary precedes the other sheets |
| SalesExport.WriteSummary | sales_report/routes/export_xlsx.py:604-613 | the summary sheet written from the summary map, or the ValueError of a label |
| SalesExport.MoreSheets | sales_report/routes/export_xlsx.py:642-677 | the sheets of the deepest level: per company, per route and salesman, or per entity; no others |
| ItemExport.Normalise | item_report/routes/item_export.py:16-48 | bad dates give 400 "Dates must be YYYY-MM-DD", else a search type other than quantity/amount gives its 400; otherwise the parsed days, the search type, company ids defaulted to [1], the default-view flag, the data view and the deepest level (route > warehouse > area > region > company) |
| ItemExport.BuildItemWhere | item_report/routes/item_export.py:100-136 | the WHERE loop builds the reference clause |
| ItemExport.ItemWhereShape | item_report/routes/item_export.py:100-136 | the date range on $1 and $2; each non-empty filter among company, region, area, warehouse, route, item, brand and item category in that order as "col = ANY($n)" with n counting up from 3 and its ids bound at n; "ms.total_amount > 0" exactly for quantity without free goods |
| ItemExport.TotalsSpec | item_report/routes/item_export.py:179-186 | `totals` has a key exactly for each "code - name" label of the rows, and each value is the sum of that label's rows |
| ItemExport.SumOverPermutation | item_report/routes/item_export.py:189 | summing a map over any permutation of its keys gives the same result |
| ItemExport.TotalsAddUp | item_report/routes/item_export.py:179-197 | the per-item totals add up to the grand total |
| ItemExport.SortedNames | item_report/routes/item_export.py:189 | `sorted(totals.items())` lists each label once, in ascending order |
| ItemExport.SortedTotalsAddUp | item_report/routes/item_export.py:189-197 | the sorted item rows add up to the grand total |
| ItemExport.DefaultRowsSpec | item_report/routes/item_export.py:176-197 | the default sheet: header, one numbered row per distinct label in sorted order with its summed quantity, and a "Total" row equal both to the sum of all values and to the sum of the rows above |
| ItemExport.TotalsStep | item_report/routes/item_export.py:182-186 | one more row adds its value to its label's total and to the grand total |
| ItemExport.TotalsLoop | item_report/routes/item_export.py:179-186 | the loop computes the totals, their first-seen key order and the grand total |
| ItemExport.WriteDefaultSheet | item_report/routes/item_export.py:188-197 | writes the numbered rows and the total row |
| ItemExport.WriteDefaultView | item_report/routes/item_export.py:176-197 | the default view's sheet |
| ItemExport.DefaultSheet | item_report/routes/item_export.py:177-197 | a header, one numbered row per name with its total, and the total row |
| ItemExport.AcceptedFailure | item_report/routes/item_export.py:204-221 | the pivot loop can only fail with ValueError, and only for weekly or daily data |
| ItemExport.FoldSpec | item_report/routes/item_export.py:204-227 | the loop succeeds exactly when every row's period clips without error; a failure is the first such error; on success a contribution is present exactly when some row produced it (a row clipped to None adds none) |
| ItemExport.FoldHas | item_report/routes/item_export.py:220-227 | one more row keeps the contributions exact |
| ItemExport.FoldPeriods | item_report/routes/item_export.py:227 | `periods` holds exactly the clipped periods of the rows |
| ItemExport.FoldSnoc | item_report/routes/item_export.py:204-227 | one more row: an error stops the loop, None skips the row, a period adds one contribution |
| ItemExport.PeriodListSnoc | item_report/routes/item_export.py:227 | one more contribution adds its period once |
| ItemExport.FoldPivot | item_report/routes/item_export.py:200-227 | the pivot loop: a ValueError exactly when the fold fails; otherwise the pivot, the period set and its first-seen list |
| ItemExport.Labels | item_report/routes/item_export.py:183 | one label per row |
| ItemExport.Values | item_report/routes/item_export.py:184 | one value per row |
| ItemExport.Clips | item_report/routes/item_export.py:206-218 | one clipped period per row |
| ItemExport.PivotSheetTotals | item_report/routes/item_export.py:246-279 | the pivot sheet has one row per item between header and total; the total row's cells are the column sums, and its grand total is both the sum of the item totals and the sum of its cells |
| ItemExport.WritePivotSheet | item_report/routes/item_export.py:235-279 | the header, item and total-row loops write the reference sheet |
| ItemExport.PivotViewSpec | item_report/routes/item_export.py:200-232 | the pivot lists items in first-seen order; the sorted periods are distinct, are exactly the periods seen, and ascend by date |
| ItemExport.WritePivotView | item_report/routes/item_export.py:200-279 | the pivot view sheet, or the ValueError of a period that does not sort or display |
| ItemExport.Export | item_report/routes/item_export.py:14-290 | `export_item_quantity_report`: its 400s first, 404 "No data found" when no row comes back, then the default sheet or the pivot sheet |
| ItemDashboard.ParseDates | app/item_report/routes/item_dashboard.py:40-44 | both dates parse, or 400 "Dates must be YYYY-MM-DD" |
| ItemDashboard.DetectLevel | app/item_report/routes/item_dashboard.py:89-110 | `detect_level`: item exactly when items are chosen, so the "Select at least one item" 400 can never fire; item group exactly when categories or brands are chosen without items; then route, warehouse, area, region and company, each exactly when its list is the first non-empty one in that order; none exactly when nothing is chosen |
| ItemDashboard.LevelPrecedence | app/item_report/routes/item_dashboard.py:89-104 | a selection at one level is never outranked by a coarser one: route over warehouse, warehouse over area, area over region, region over company |
| ItemDashboard.RankingFor | app/item_report/routes/item_dashboard.py:439-453 | top/least 5 exactly for item levels with more than 5 items; top/least 10 exactly for the company, region, area, warehouse and route levels |
| ItemDashboard.RankingsOfRequest | app/item_report/routes/item_dashboard.py:439-453 | for a request, top/least 5 is shown exactly when more than 5 items are chosen; the item group and "none" levels without that show no ranking |
| ItemDashboard.StartFilters | app/item_report/routes/item_dashboard.py:62-73 | the date clause, the item filter when items are chosen, and the three named parameters |
| ItemDashboard.AddFilters | app/item_report/routes/item_dashboard.py:75-86 | the seven `add` calls in order |
| ItemDashboard.BuildFilters | app/item_report/routes/item_dashboard.py:62-118 | `where_sql` and `params` are those of the reference query |
| ItemDashboard.FacetsOwnFresh | app/item_report/routes/item_dashboard.py:75-86 | each `add` uses its own parameter name, none reused and none clashing with the three base parameters |
| ItemDashboard.FacetIffFires | app/item_report/routes/item_dashboard.py:75-86 | each filter's fragment and parameter appear exactly when its list is non-empty, bound to its ids |
| ItemDashboard.QueryOpens | app/item_report/routes/item_dashboard.py:62-73 | the date range comes first; the item filter appears exactly when items are chosen and comes second; `item_ids`, `from_date` and `to_date` are always bound |
| ItemDashboard.QueryCloses | app/item_report/routes/item_dashboard.py:115-118 | "ms.total_amount > 0" appears exactly without free goods and comes last; every named parameter is bound |
| ItemDashboard.PeriodExprs | app/item_report/routes/item_dashboard.py:165-176 | the purchase and return periods use the same pattern on `hih.invoice_date` and `rh.created_at` |
| ItemDashboard.PeriodPatternDistinct | app/item_report/routes/item_dashboard.py:165-176 | each granularity has its own pattern, and the one chosen is never the yearly one |
| ItemDashboard.Prepare | app/item_report/routes/item_dashboard.py:40-176 | the 400 for bad dates, otherwise the WHERE text and parameters, the level, the ranking, the granularity choice and the period expressions |
| SalesTable.LevelOf | sales_report/routes/table.py:28-86 | the group level: item exactly when items are chosen, then item category, then customer when any customer filter is set, then salesman, route, warehouse, area and region, each exactly when its list is the first non-empty one in that order, and company exactly when none of these is given |
| SalesTable.CustomerOutranksOrganisation | sales_report/routes/table.py:28-86 | with a customer filter and no item filter, the organisation lists make no difference |
| SalesTable.CompanyIdsIrrelevant | sales_report/routes/table.py:28-86 | the company list never changes the level |
| SalesTable.NonEmptyStripped | sales_report/routes/table.py:89-93 | keeps at most the pieces and never an empty one |
| SalesTable.LeftJoinLine | sales_report/routes/table.py:28-86 | a join literal is one non-blank stripped line |
| SalesTable.BlockLines | sales_report/routes/table.py:89-93 | a multi-line join block splits back into its lines |
| SalesTable.ExtraJoinLines | sales_report/routes/table.py:89-93 | the lines of a level's extra joins are that level's joins |
| SalesTable.TrimLines | sales_report/routes/table.py:89-93 | the loop over `extra_joins.splitlines()` keeps the stripped non-empty lines |
| SalesTable.AppendExtraJoins | sales_report/routes/table.py:89-93 | the joins extended with the level's lines, without duplicates |
| SalesTable.DedupAppend | sales_report/routes/table.py:89-93 | the joined list has no duplicates, holds exactly the joins of both lists, and keeps the earlier joins first |
| SalesTable.JoinsOfTable | sales_report/routes/table.py:89-93 | the same for the level's own join lines |
| SalesTable.ValueColumn | sales_report/routes/table.py:95-97 | quantity sum exactly when the lower-cased search type is "quantity" |
| SalesTable.BuildFields | sales_report/routes/table.py:99-124 | the select and group lists are the reference layout |
| SalesTable.LayoutShape | sales_report/routes/table.py:99-124 | four leading fields, the level field, the value column last, and one select field more than group fields |
| SalesTable.OptionalFields | sales_report/routes/table.py:117-124 | the channel field exactly with a channel filter and the customer category field exactly with a category filter, inserted at positions 4 and 5 |
| SalesTable.CeilDiv | sales_report/routes/table.py:150 | `ceil(a / b)`: the least multiple count covering a |
| SalesTable.Offset | sales_report/routes/table.py:148 | the offset is a multiple of 50 |
| SalesTable.TotalPages | sales_report/routes/table.py:150 | at least one page; the pages hold all rows, and the last page is not empty unless there is only one |
| SalesTable.RowPage | sales_report/routes/table.py:147-150 | each row is on exactly one page within the page count, and the last page starts before the last row |
| SalesTable.Paging | sales_report/routes/table.py:172-178 | a next link exactly before the last page and a previous link exactly after the first |
| SalesTable.BaseOfPageUrl | sales_report/routes/table.py:169 | cutting a page link at "?" gives back its base |
| SalesTable.LinksRoundTrip | sales_report/routes/table.py:169-178 | the next link has the same base and carries page + 1, which parses back; following it, the previous link leads back |
| SalesTable.AssembleTable | sales_report/routes/table.py:28-150 | the table query: joins without duplicates, the select and group layouts, the level column and the page offset |
| FilterHelper.StartQuery | sales_report/utils/filter_helper.py:45-47 | the date range and its two named parameters |
| FilterHelper.OrganisationFilters | sales_report/utils/filter_helper.py:50-85 | the free-good test and the company, region, area, warehouse, route and salesman filters in order; the warehouse join is added for regions, and for areas only when no region was given |
| FilterHelper.ItemAndCustomerFilters | sales_report/utils/filter_helper.py:89-108 | the item category, item and customer filters in order, with the item join for categories and the customer join for any customer filter |
| FilterHelper.BuildQueryParts | sales_report/utils/filter_helper.py:35-111 | `build_query_parts` builds the reference query: the date range, the filters in order, and the joins without duplicates |
| FilterHelper.WarehouseGuardRedundant | sales_report/utils/filter_helper.py:59-110 | after deduplication the `need_warehouse_join` guard makes no difference |
| FilterHelper.FacetsDistinct | sales_report/utils/filter_helper.py:50-108 | no two filters share a parameter name |
| FilterHelper.FacetsOwnFresh | sales_report/utils/filter_helper.py:50-108 | each filter binds the name its fragment uses, and none reuses a date parameter |
| FilterHelper.HeadBound | sales_report/utils/filter_helper.py:45-47 | the date range names only bound parameters |
| FilterHelper.FacetIffFires | sales_report/utils/filter_helper.py:54-108 | each filter's fragment and parameter appear exactly when its list is non-empty, bound to its ids |
| FilterHelper.QueryShape | sales_report/utils/filter_helper.py:45-51 | the date range comes first with both dates bound; the free-good test appears exactly for "without_free_good" in any case; every named parameter is bound |
| FilterHelper.QueryJoins | sales_report/utils/filter_helper.py:59-110 | the joins have no duplicates; the warehouse join exactly for regions or areas, the item join exactly for item categories, the customer join exactly for any customer filter |
| FilterHelper.ExpectedJoins | sales_report/utils/filter_helper.py:110 | the joins are the raw joins with duplicates removed, first occurrence kept |
| FilterHelper.RawJoinsMembers | sales_report/utils/filter_helper.py:59-110 | the same membership facts for the deduplicated raw joins |
| FilterHelper.DedupOptMembers | sales_report/utils/filter_helper.py:110 | `list(dict.fromkeys(...))` over optional joins keeps each join present exactly when one of its conditions held |
| FilterHelper.Convertible | sales_report/utils/filter_helper.py:144-177 | never more ids than items |
| FilterHelper.KeepInts | sales_report/utils/filter_helper.py:171-177 | the loop keeps, in order, each item `int(x)` accepts, converted |
| FilterHelper.ConvertibleHas | sales_report/utils/filter_helper.py:144-177 | an id is kept exactly when some item converts to it |
| FilterHelper.ConvertibleOfInts | sales_report/utils/filter_helper.py:171-181 | a list of integers converts to itself |
| FilterHelper.StripBrackets | sales_report/utils/filter_helper.py:156 | dropping the brackets never lengthens the text |
| FilterHelper.NormalizeUserField | sales_report/utils/filter_helper.py:123-186 | `normalize_user_field`: "list" exactly with a non-empty id list; None gives "none"; an array gives its convertible ids, or "all" when none convert; an int gives that id; a float gives its integer part, cut toward zero; a bracketed text is decoded as JSON, or failing that split on commas, and either way "all" for an empty list and "none" when a piece does not parse; another text gives its integer or "none" |
| FilterHelper.NormalizeRoundTrips | sales_report/utils/filter_helper.py:165-181 | an array of ids normalises to that list, and a printed id is read back as that one id |
| FilterHelper.NormalizeFloatsAndBools | sales_report/utils/filter_helper.py:171-177 | in an array, floats are cut toward zero and True and False count as 1 and 0, as `int()` does; other values are skipped |
| FilterHelper.TruncReal | sales_report/utils/filter_helper.py:174 | `int()` of a float: the integer part, rounded toward zero |
| FilterHelper.Intersect | sales_report/utils/filter_helper.py:218 | the intersection is never longer than the UI list |
| FilterHelper.IntersectHas | sales_report/utils/filter_helper.py:218 | an id is in the intersection exactly when it is in both lists |
| FilterHelper.ResolveEffective | sales_report/utils/filter_helper.py:188-223 | `resolve_effective_ui_vs_user`: "none" comes with an empty list; "all" comes with None and happens exactly when the user has all access and the UI selects nothing |
| FilterHelper.ResolveNarrows | sales_report/utils/filter_helper.py:188-223 | no access stays none; all access takes the UI list; a list user without UI selection keeps the user list; otherwise the UI list is narrowed to the user list, "none" exactly when they share nothing |
| SalesCommon.BuildQueryParts | app/sales_report/utils/sales_common_helper.py:31-96 | builds the reference query |
| SalesCommon.FacetsDistinct | app/sales_report/utils/sales_common_helper.py:43-92 | no two filters share a parameter name |
| SalesCommon.FacetsOwnFresh | app/sales_report/utils/sales_common_helper.py:43-92 | each filter binds the name its fragment uses, and none reuses a date parameter |
| SalesCommon.FacetIffFires | app/sales_report/utils/sales_common_helper.py:43-92 | each filter's fragment and parameter appear exactly when its list is non-empty, bound to its ids |
| SalesCommon.QueryShape | app/sales_report/utils/sales_common_helper.py:36-41 | the date range first with both dates bound; "id.item_total <> 0" exactly for "without_free_good" in any case; every named parameter is bound |
| SalesCommon.QueryJoins | app/sales_report/utils/sales_common_helper.py:48-95 | exactly one warehouse join when regions or areas are given, and none otherwise |
| ItemCommon.Start | item_report/utils/common_helper.py:68-75 | the date range, its parameters and the free-good test |
| ItemCommon.BuildQueryPartsAsWritten | item_report/utils/common_helper.py:58-136 | as written: fails with AttributeError exactly when item categories are given (the `apppend` call at line 126); otherwise the reference query |
| ItemCommon.BuildQueryParts | item_report/utils/common_helper.py:58-136 | with `append` at line 126: the reference query for every selection |
| ItemCommon.FacetsOwnFresh | item_report/utils/common_helper.py:78-132 | distinct parameter names, each bound by its own filter and none reusing a date parameter |
| ItemCommon.FacetIffFires | item_report/utils/common_helper.py:78-132 | each filter's fragment and parameter appear exactly when its list is non-empty, bound to its ids |
| ItemCommon.QueryShape | item_report/utils/common_helper.py:68-75 | the date range first with both dates bound; "id.item_total > 0" exactly for "without_free_good" in any case; every named parameter is bound |
| ItemCommon.QueryJoins | item_report/utils/common_helper.py:89-134 | exactly one warehouse join when regions or areas are given, and none otherwise |
| Comparison.ValidateMandatory | app/comparison_report/utils/comparison_common_helper.py:18-38 | passes exactly when a search type is given and the report kind is day, month or year; each failure is a 400, and the report-kind detail only when both fields were given |
| Comparison.GetPeriods | app/comparison_report/utils/comparison_common_helper.py:100-128 | every period returned is a real date |
| Comparison.DayBeforeFirst | app/comparison_report/utils/comparison_common_helper.py:113-116 | the last day of the previous month is the day before the first of the month |
| Comparison.PrevMonthFromOrdinal | app/comparison_report/utils/comparison_common_helper.py:113 | `current_from - timedelta(days=1)` is the last day of the previous month |
| Comparison.DayPeriods | app/comparison_report/utils/comparison_common_helper.py:101-106 | by day: the current period is the day itself and the previous one the day before; fails only on the first representable day |
| Comparison.MonthPeriods | app/comparison_report/utils/comparison_common_helper.py:108-116 | by month: the whole selected month and the whole previous month; fails only in January of year 1 |
| Comparison.YearPeriods | app/comparison_report/utils/comparison_common_helper.py:118-123 | by year: the whole year and the whole year before; fails only in year 1 |
| Comparison.OtherPeriods | app/comparison_report/utils/comparison_common_helper.py:125-126 | any other kind raises ValueError |
| Comparison.PeriodsAdjacent | app/comparison_report/utils/comparison_common_helper.py:100-128 | the current period holds the selected day, and the previous period ends the day before the current one starts |
| Comparison.BuildQueryParts | app/comparison_report/utils/comparison_common_helper.py:42-74 | builds the reference query |
| Comparison.QueryShape | app/comparison_report/utils/comparison_common_helper.py:42-74 | no joins; the window from prev_from to current_to first with both bound; "id.item_total > 0" exactly for "without_free_good" in any case; the warehouse and salesman filters exactly when given; every named parameter is bound |
| CustomerCommon.BuildQueryParts | app/customer_report/utils/customer_common_helper.py:31-111 | builds the reference query |
| CustomerCommon.FacetsOwnFresh | app/customer_report/utils/customer_common_helper.py:54-104 | distinct parameter names, each bound by its own filter and none reusing a date parameter |
| CustomerCommon.FacetIffFires | app/customer_report/utils/customer_common_helper.py:54-104 | each filter's fragment and parameter appear exactly when its list is non-empty, bound to its ids |
| CustomerCommon.QueryShape | app/customer_report/utils/customer_common_helper.py:43-50 | the date range first with both dates bound; the free-good test exactly for "without_free_good" in any case; every named parameter is bound |
| CustomerCommon.QueryJoins | app/customer_report/utils/customer_common_helper.py:54-109 | exactly one warehouse join when companies, regions or areas are given (the company filter adds it too), and none otherwise |
| CustomerDashboard.BuildQueryParts | app/customer_dashboard/utils/cust_dash_helper.py:20-31 | the date range, the free-good test, and the two dates |
| CustomerDashboard.NewCustomerDate | app/customer_dashboard/utils/cust_dash_helper.py:34-42 | the creation-date range and the two dates |
| CustomerDashboard.QueryShape | app/customer_dashboard/utils/cust_dash_helper.py:20-31 | the date range first; a second fragment, "id.item_total <> 0", exactly for "without_free_good" in any case; the only parameters are the two dates, and every named parameter is bound |
| CustomerDashboard.NewCustomerShape | app/customer_dashboard/utils/cust_dash_helper.py:34-42 | the creation-date range names exactly the two bound dates |
| CustomerSalesExport.BuildWhere | app/customer_report/utils/customer_sales_export_helper.py:6-36 | `build_where` gives the reference WHERE text and parameters |
| CustomerSalesExport.FacetsOwnFresh | app/customer_report/utils/customer_sales_export_helper.py:13-31 | distinct parameter names, each bound by its own filter and none reusing a date parameter |
| CustomerSalesExport.FacetIffFires | app/customer_report/utils/customer_sales_export_helper.py:13-31 | each filter's fragment and parameter appear exactly when its list is non-empty, bound to its ids |
| CustomerSalesExport.QueryShape | app/customer_report/utils/customer_sales_export_helper.py:7-36 | the date range first; "total_amount > 0" exactly for "without_free_good" exactly as spelt, and then last; every named parameter is bound |
| CustomerSalesExport.FiredNamesListed | app/customer_report/utils/customer_sales_export_helper.py:13-31 | the filter parameters bound are exactly those of the non-empty lists |
| CustomerSalesExport.ParamKeys | app/customer_report/utils/customer_sales_export_helper.py:8-31 | the parameters are the two dates plus one per non-empty list |
| DashboardCommon.BuildQueryParts | app/dashboard/utils/dashboard_common_helper.py:25-170 | `sales_build_query_parts`, `purchase_build_query_parts` and `return_build_query_parts` each build the reference query over their ledger's columns |
| DashboardCommon.FacetsOwnFresh | app/dashboard/utils/dashboard_common_helper.py:37-57 | distinct parameter names, each bound by its own filter and none reusing a date parameter |
| DashboardCommon.FacetIffFires | app/dashboard/utils/dashboard_common_helper.py:37-57 | each filter's fragment and parameter appear exactly when its list is non-empty, bound to its ids |
| DashboardCommon.QueryShape | app/dashboard/utils/dashboard_common_helper.py:30-35 | the ledger's date range first with both dates bound; the ledger's free-good test exactly for "without_free_good" in any case; every named parameter is bound |
| DashboardCommon.QueryJoins | app/dashboard/utils/dashboard_common_helper.py:41-71 | exactly one warehouse join when regions or areas are given, and none otherwise |
| DashboardCommon.LedgersBindAlike | app/dashboard/utils/dashboard_common_helper.py:25-170 | the sales, purchase and return builders bind the same parameters and produce as many fragments and joins |
| Fridge.BuildQueryParts | app/fridge_tracking_report/utils/fridge_helper.py:27-79 | builds the reference fragments and parameters |
| Fridge.FacetsOwnFresh | app/fridge_tracking_report/utils/fridge_helper.py:41-75 | distinct parameter names, each bound by its own filter and none reusing a date parameter |
| Fridge.FacetIffFires | app/fridge_tracking_report/utils/fridge_helper.py:41-75 | each filter's fragment and parameter appear exactly when it applies, bound to its value |
| Fridge.HaveFridgeOnlyYesNo | app/fridge_tracking_report/utils/fridge_helper.py:41-43 | the fridge test and `have_fridge` appear exactly for "yes" or "no", bound to that answer |
| Fridge.CompanyAsStrings | app/fridge_tracking_report/utils/fridge_helper.py:45-51 | company ids are bound as a tuple of their texts, one per id, each reading back as that id |
| Fridge.QueryShape | app/fridge_tracking_report/utils/fridge_helper.py:35-39 | the creation-date range first with both dates bound; every named parameter is bound |
| PrimaryOrderCommon.BuildQueryParts | app/primary_order_report/utils/pmry_ord_common_helper.py:58-117 | builds the reference query |
| PrimaryOrderCommon.FacetsOwnFresh | app/primary_order_report/utils/pmry_ord_common_helper.py:75-113 | distinct parameter names, each bound by its own filter and none reusing a date parameter |
| PrimaryOrderCommon.FacetIffFires | app/primary_order_report/utils/pmry_ord_common_helper.py:75-113 | each filter's fragment and parameter appear exactly when its list is non-empty, bound to its ids |
| PrimaryOrderCommon.QueryShape | app/primary_order_report/utils/pmry_ord_common_helper.py:67-73 | the order-date range first with both dates bound; every named parameter is bound |
| PrimaryOrderCommon.QueryJoins | app/primary_order_report/utils/pmry_ord_common_helper.py:87-115 | exactly one warehouse join when regions or areas are given, and none otherwise |
| PrimaryOrderExport.BuildFilters | app/primary_order/utils/po_export_helper.py:54-85 | `build_filters` gives the reference WHERE text and parameters |
| PrimaryOrderExport.FacetsOwnFresh | app/primary_order/utils/po_export_helper.py:66-83 | distinct parameter names, each bound by its own filter and none reusing a date parameter |
| PrimaryOrderExport.FacetIffFires | app/primary_order/utils/po_export_helper.py:66-83 | each filter's fragment and parameter appear exactly when its list is non-empty, bound to its ids |
| PrimaryOrderExport.FiredNamesListed | app/primary_order/utils/po_export_helper.py:66-83 | the filter parameters bound are exactly those of the non-empty lists |
| PrimaryOrderExport.ParamKeys | app/primary_order/utils/po_export_helper.py:58-83 | the parameters are the two dates plus one per non-empty list |
| PrimaryOrderExport.WhereOpensWithWindow | app/primary_order/utils/po_export_helper.py:58-85 | the WHERE text starts with the order-date range and is only that exactly when no list is given |
| QueryParts.ReferenceNoTail | sales_report/utils/filter_helper.py:35-111 | without closing fragments the reference query is the run of the filters over the opening fragments, with the joins deduplicated |
| QueryParts.FiredLength | sales_report/utils/filter_helper.py:54-108 | one fragment per filter that fires |
| QueryParts.FacetPartsHas | sales_report/utils/filter_helper.py:54-108 | a fragment is present exactly when some filter that fires produces it |
| QueryParts.FacetPartsAt | sales_report/utils/filter_helper.py:54-108 | a filter that fires lands right after the earlier filters that fired |
| QueryParts.FiredGrows | sales_report/utils/filter_helper.py:54-108 | a later filter that fires lands later |
| QueryParts.FacetParamsKeys | sales_report/utils/filter_helper.py:54-108 | a parameter is bound exactly when it is a base parameter or some firing filter binds it |
| QueryParts.FacetParamsKeySet | sales_report/utils/filter_helper.py:54-108 | the bound names are the base names plus the names of the firing filters |
| QueryParts.WhereOpensWith | app/primary_order/utils/po_export_helper.py:85 | `" AND ".join(...)` starts with the first fragment and is only that exactly when no filter fires |
| QueryParts.SameBindingsAgree | app/dashboard/utils/dashboard_common_helper.py:25-170 | filters that bind alike give the same parameters and as many fragments |
| QueryParts.FacetParamsValue | sales_report/utils/filter_helper.py:54-108 | with distinct names, a firing filter's name is bound to its own value |
| QueryParts.FacetParamsKeep | sales_report/utils/filter_helper.py:45-47 | a base parameter no firing filter rebinds keeps its value |
| QueryParts.FacetPartsBound | sales_report/utils/filter_helper.py:54-108 | every fragment a filter produces names only parameters that are bound |
| QueryParts.BaseKept | sales_report/utils/filter_helper.py:45-47 | the base parameters stay bound |
| QueryParts.ReferenceBound | sales_report/utils/filter_helper.py:35-111 | every named parameter of the whole query is bound |
| QueryParts.ReferenceFacet | sales_report/utils/filter_helper.py:54-108 | each filter's fragment and parameter appear in the whole query exactly when it fires, bound to its value |
| QueryParts.ReferenceBase | sales_report/utils/filter_helper.py:45-47 | a base parameter keeps its value in the whole query |
| QueryParts.RunSnoc | sales_report/utils/filter_helper.py:54-108 | running one more filter is one more step |
| QueryParts.AddFacet | sales_report/utils/filter_helper.py:50-51 | one guarded `append` and parameter assignment |
| QueryParts.AddAnyFacet | sales_report/utils/filter_helper.py:54-56 | one `if ids: append("col = ANY(:name)"); params[name] = ids` |
| QueryParts.AddJoin | sales_report/utils/filter_helper.py:59-64 | one guarded `joins.append`, equal after deduplication |
| QueryParts.GuardedJoin | sales_report/utils/filter_helper.py:59-110 | after deduplication, guarding the second warehouse join by "not yet added" changes nothing |
| QueryParts.DedupExtend | sales_report/utils/filter_helper.py:110 | lists equal after deduplication stay equal when extended alike |
| VisitCommon.Build | app/visit_report/utils/visit_common_helper.py:61-112 | the shared body of both builders gives the reference fragments and parameters for its table |
| VisitCommon.BuildQueryParts | app/visit_report/utils/visit_common_helper.py:61-87 | `build_query_parts` over the visit plan: the reference query |
| VisitCommon.BuildCustomerFilterParts | app/visit_report/utils/visit_common_helper.py:90-112 | `build_customer_filter_parts` over the sales header: the reference WHERE text and parameters |
| VisitCommon.FacetsOwnFresh | app/visit_report/utils/visit_common_helper.py:73-83 | distinct parameter names, each bound by its own filter and none reusing a date parameter |
| VisitCommon.FacetIffFires | app/visit_report/utils/visit_common_helper.py:73-83 | each filter's fragment and parameter appear exactly when its list is non-empty, bound to its ids |
| VisitCommon.QueryShape | app/visit_report/utils/visit_common_helper.py:61-87 | no joins; the date window followed by the firing warehouse, route and salesman filters; both dates bound; every named parameter is bound |
| VisitCommon.CustomerWhereOpensWithWindow | app/visit_report/utils/visit_common_helper.py:90-112 | the WHERE text starts with the requested-date window and is only that exactly when no list is given |
| WarehouseJoinHelpers.WithWarehouseJoin | customer_report/utils/customer_sales_dashboard_helper.py:38-41 | the warehouse join is present afterwards; the list keeps its prefix, grows by at most one and gains nothing else |
| WarehouseJoinHelpers.JoinList.EnsureWarehouseJoin | customer_report/utils/customer_sales_dashboard_helper.py:38-41 | `ensure_warehouse_join` updates the list in place (also app/sales_report/utils/dashboard_helper.py:33-36) |
| WarehouseJoinHelpers.EnsureIdempotent | customer_report/utils/customer_sales_dashboard_helper.py:38-41 | calling it twice is calling it once |
| WarehouseJoinHelpers.EnsureChangesOnlyWhenAbsent | customer_report/utils/customer_sales_dashboard_helper.py:40-41 | the list changes exactly when the join is absent, and then gains it at the end |
| WarehouseJoinHelpers.EnsureKeepsNoDup | customer_report/utils/customer_sales_dashboard_helper.py:38-41 | a list without duplicates stays without duplicates |
| WarehouseJoinHelpers.CustomerLevelFilter | customer_report/utils/customer_sales_dashboard_helper.py:44-54 | "1=1" exactly for levels other than route, warehouse, area and region |
| WarehouseJoinHelpers.LevelFilterNamesItsParam | customer_report/utils/customer_sales_dashboard_helper.py:44-52 | each level's filter names its own `:<level>_ids` parameter |


## Left out

- Database access: connecting, executing SQL and fetching rows. The fetched rows, the counts and the name maps read at sales_report/routes/export_xlsx.py:305-443 are inputs.
- HTTP handling: FastAPI routing, `Response` and the file name. An `HTTPException`, a `ValueError` or an `AttributeError` becomes a `Failure` value.
- Workbook output: the xlsxwriter calls, cell formats, column widths and the in-memory file. A sheet is the sequence of rows it writes, each as a value.
- SQL text: the value and quantity expressions are opaque strings. This covers `value_col` in both exports, the `quantity_expr_sql` helpers, and the expressions at app/item_report/routes/item_dashboard.py:121-158. The table route's SELECT templates are opaque too. The model keeps the fragments, parameters, joins and field lists.
- Indentation: the multi-line join literals of sales_report/routes/table.py:28-86 are kept as one line per join, because the route strips each line before use.
- sales_report/utils/common_helper.py is not part of this model. sales_report/routes/table.py imports `build_query_parts` from it, so the table's joins, WHERE text and parameters are inputs to `SalesTable.AssembleTable`.
- Two helper modules are imported but not part of this model: sales_report/utils/export_xlsx_helper.py and item_report/utils/item_export_xlsx_helper.py. The exports use the functions of the same names in app/sales_report/utils/export_helper.py and app/item_report/utils/item_export_xlsx_helper.py.
- Floating point: `float` sums are `real` sums, and float rounding is not modelled. `ceil(total / 50)` uses integer division.
- Date parsing: `strptime` is modelled on the formats the code names ("%Y-%m-%d", "%d %b %Y", "%d %b", "%d-%b-%Y", "%d-%b"), each with two-digit days and months and a four-digit year; `fromisoformat` on YYYY-MM-DD. Python also accepts single-digit or space-padded `%m`/`%d` and lets a space in the format match any run of whitespace, and `fromisoformat` accepts ISO forms with a time part and week dates. Those texts are treated as failures.
- Text handling: `str.lower()` and whitespace tests cover ASCII only, so non-ASCII case folding is not modelled.
- Text.ParseInt: `int()` also accepts underscores between digits and non-ASCII digits; the model rejects them.
- JSON decoding in `normalize_user_field`: the result of `json.loads` is an input to `FilterHelper.NormalizeUserField`, either a list of scalars or a decoding failure. A JSON value that is not a list, where Python would iterate over it, is not modelled.
- FilterHelper.NormalizeUserField: a raw value that is none of None, a string, a list, an int or a float gives "none" in the model; Python tries `int(raw)` on it, which may succeed for some other type. Floats are finite reals: NaN and infinity, where `int()` raises, are not modelled.
- Time measurement and the `print` of the query time in the table route are not modelled.
- Routes outside the named helpers are not modelled: the other dashboard, table, filter and export routes, their SQL templates, and the growth and coverage percentages. Apart from the shared helpers, they only run SQL.
- Comparison.ValidateMandatory: `selected_date` arrives already parsed as a date, so the ISO check on a string and the missing-date branch never apply and are not modelled.
- SheetNames.SafeSheetName: a name made only of whitespace gives "", as `SheetNames.SafeSheetNameEmpty` states; xlsxwriter then falls back to its own "SheetN" name, and that fallback, with its possible clash with another entity's sheet, is outside the model.
- SheetNames.SheetNamer.Sheet: the names it returns can exceed Excel's 31-character limit, because " (k)" is appended after the cut; `SheetNames.CandidateExceedsLimit` exhibits such a name. Excel's own refusal of such a name is not modelled.
- Cell positions: a sheet is its sequence of rows; the row and column indices handed to xlsxwriter are not modelled.
- AggregatedSheet.WriteAggregatedSheet: an item's category is always a string in the model. A NULL category (None) next to text categories makes `sorted()` at app/sales_report/utils/export_helper.py:55 raise TypeError when it compares None with a string; that failure is not modelled.

## Findings

| source | as written | input that shows it | evidently intended | confidence | as-written member | corrected member |
|---|---|---|---|---|---|---|
| item_report/utils/common_helper.py:125-127 | the item category filter calls `where_fragments.apppend(...)`, so any request with item categories raises AttributeError | `item_category_ids = [1]` | append "it.category_id = ANY(:item_category_ids)" and bind the ids, like every other filter | high, not executed | ItemCommon.BuildQueryPartsAsWritten | ItemCommon.BuildQueryParts |
| sales_report/routes/export_xlsx.py:481-483 | the default view reads the entity column as `entity_type + "_id"`; for customer channels that is "customer_channel_id", but the query selects the column "channel_id" | a default-view export with `customer_channel_ids = [5]` and no customer or customer category ids | read the column the query selects for the level ("channel_id" for channels), so the channel default view holds the channels' rows | medium, not executed | SalesDefaultView.ChannelViewAsWrittenIsEmpty | SalesDefaultView.DefaultColumnIsSelected |
| sales_report/routes/export_xlsx.py:652 | the per-company sheets file a weekly row under the full Monday-to-Sunday week, but the columns are the weeks cut to to_date, so a row of the last, partial week falls on no column and is lost | weekly export from 2024-01-01 to 2024-01-10, with a row of week "2024-02" | file the row under the same cut week as the summary (line 272) | medium, not executed | SalesExport.CompanyWeekAsWrittenMissed | SalesExport.CompanyColumnsListed |

The export itself (`SalesExport.Export`, `SalesExport.WriteDefaultExport`, `SalesExport.CompanySheets`) follows the code as written for the last two rows; the corrected column (`SalesDefaultView.DefaultColumn`) and the corrected company key (`SalesExport.IntendedCompanyContributions`) are stated beside it, and `SalesDefaultView.DefaultColumnAsWrittenAgrees` and `SalesExport.CompanyAsWrittenOffWeekly` show where the two agree.
