/** The row loop of the sales export (sales_report/routes/export_xlsx.py):
    the period key of each row, and the fold of the rows into the summary
    and company pivots and the per-entity pivots. */
module SalesExportRows {
  import opened Wrappers
  import opened Text
  import opened Calendar
  import opened Sorting
  import opened Granularity
  import opened ExportPeriods
  import opened Pivot
  import opened PivotFold
  import opened EntityFold
  import opened Hierarchy

  /** A row of the grouped query: the item columns, the period label, the
      summed value (None for NULL) and the id columns it carries, keyed by
      column name (a column the query did not select is absent). */
  datatype SalesRow = SalesRow(itemId: int, itemCode: string, itemName: string, category: string,
                               period: string, total: Option<real>, ids: map<string, int>)

  /** r.get(col) */
  function Get(r: SalesRow, col: string): Option<int>
  {
    if col in r.ids then Some(r.ids[col]) else None
  }

  /** float(r["total_value"] or 0.0) */
  function ValueOf(r: SalesRow): real
  {
    match r.total case Some(v) => v case None => 0.0
  }

  /** (item_id, "code - name", category) */
  function KeyOf(r: SalesRow): ItemKey
  {
    ItemKey(r.itemId, r.itemCode + " - " + r.itemName, r.category)
  }

  // ----- weekly keys -----

  /** The pieces of a converted week label, split on the first separator
      it contains among " to ", "_to_", " - ", "_" and "/". */
  function SplitWeek(wk: string): (parts: seq<string>)
    ensures |parts| >= 1
  {
    if Contains(wk, " to ") then Split(wk, " to ")
    else if Contains(wk, "_to_") then Split(wk, "_to_")
    else if Contains(wk, " - ") then Split(wk, " - ")
    else if Contains(wk, "_") then Split(wk, "_")
    else if Contains(wk, "/") then Split(wk, "/")
    else [wk]
  }

  /** s[j..j+10] has the shape dddd-dd-dd. */
  predicate DateShapeAt(s: string, j: nat)
  {
    j + 10 <= |s| && s[j + 4] == '-' && s[j + 7] == '-' && DigitsExcept(s[j..j + 10], 4, 7)
  }

  /** The first match of (\d{4}-\d{2}-\d{2}) at or after j. */
  function FindDateShape(s: string, j: nat): (r: Option<nat>)
    ensures r.Some? ==> j <= r.value && DateShapeAt(s, r.value)
    ensures r.Some? ==> forall k :: j <= k < r.value ==> !DateShapeAt(s, k)
    ensures r.None? ==> forall k :: j <= k ==> !DateShapeAt(s, k)
    decreases |s| - j
  {
    if j + 10 > |s| then None
    else if DateShapeAt(s, j) then Some(j)
    else FindDateShape(s, j + 1)
  }

  /** The year of from_date, which the year-less formats take. */
  function YearOf(fromDay: int): (y: int)
    requires ValidOrdinal(fromDay)
    ensures 1 <= y <= MaxYear
  {
    ValidOrdinalInRange(fromDay);
    FromOrdinal(fromDay).year
  }

  /** The strptime formats _try_parse_date tries: "%Y-%m-%d", and
      "%d<sep>%b<sep>%Y" and "%d<sep>%b" with a space or a dash. */
  datatype DateFormat = IsoFormat | DayMonthYearFormat(sep: char) | DayMonthFormat(sep: char)

  /** The formats in the order the loop tries them. */
  const TriedFormats: seq<DateFormat> :=
    [IsoFormat, DayMonthYearFormat(' '), DayMonthFormat(' '), DayMonthYearFormat('-'), DayMonthFormat('-')]

  /** strptime(t, fmt).date(); a year-less format is read in 1900 and
      then moved to the given year. */
  function ParseAs(t: string, f: DateFormat, year: int): (r: Option<int>)
    requires 1 <= year <= MaxYear
    ensures r.Some? ==> ValidOrdinal(r.value)
  {
    match f
    case IsoFormat => ParseIsoDate(t)
    case DayMonthYearFormat(sep) => ParseDayMonthYear(t, sep)
    case DayMonthFormat(sep) => ParseDayMonth(t, sep, year)
  }

  /** The loop over the formats: the date of the first format that reads
      t, or None when none does. */
  function FirstFormat(t: string, fs: seq<DateFormat>, year: int): (r: Option<int>)
    requires 1 <= year <= MaxYear
    ensures r.Some? ==> ValidOrdinal(r.value)
    ensures r.None? <==> forall i :: 0 <= i < |fs| ==> ParseAs(t, fs[i], year).None?
  {
    if fs == [] then None
    else if ParseAs(t, fs[0], year).Some? then ParseAs(t, fs[0], year)
    else
      assert forall i :: 1 <= i < |fs| ==> fs[i] == fs[1..][i - 1];
      FirstFormat(t, fs[1..], year)
  }

  /** The loop stops at format j when every earlier format fails and
      format j reads the text. */
  lemma {:induction false} FirstFormatAt(t: string, fs: seq<DateFormat>, year: int, j: nat)
    requires 1 <= year <= MaxYear && j < |fs|
    requires forall i :: 0 <= i < j ==> ParseAs(t, fs[i], year).None?
    requires ParseAs(t, fs[j], year).Some?
    ensures FirstFormat(t, fs, year) == ParseAs(t, fs[j], year)
  {
    if j > 0 {
      assert fs[1..][j - 1] == fs[j];
      FirstFormatAt(t, fs[1..], year, j - 1);
    }
  }

  /** A format fails on text of another length, or whose third character
      is not the format's separator. */
  lemma FormatMisses(t: string, f: DateFormat, year: int)
    requires 1 <= year <= MaxYear
    ensures f.IsoFormat? && |t| != 10 ==> ParseAs(t, f, year).None?
    ensures f.DayMonthYearFormat? && (|t| != 11 || t[2] != f.sep) ==> ParseAs(t, f, year).None?
    ensures f.DayMonthFormat? && (|t| != 6 || t[2] != f.sep) ==> ParseAs(t, f, year).None?
  {
  }

  /** _try_parse_date: the stripped text in the tried formats, or else the
      first dddd-dd-dd inside it; None when none of them is a date. */
  function TryParseDate(s: string, fromDay: int): (r: Option<int>)
    requires ValidOrdinal(fromDay)
    ensures r.Some? ==> ValidOrdinal(r.value)
  {
    var t := Strip(s);
    match FirstFormat(t, TriedFormats, YearOf(fromDay))
    case Some(d) => Some(d)
    case None =>
      match FindDateShape(t, 0)
      case Some(j) => ParseIsoDate(t[j..j + 10])
      case None => None
  }

  /** A text that some format reads is the date of the first such format. */
  lemma TryParseDateFirst(s: string, fromDay: int)
    requires ValidOrdinal(fromDay)
    requires FirstFormat(Strip(s), TriedFormats, YearOf(fromDay)).Some?
    ensures TryParseDate(s, fromDay) == FirstFormat(Strip(s), TriedFormats, YearOf(fromDay))
  {
  }

  /** A text that no format reads and that holds no dddd-dd-dd is no
      date. */
  lemma TryParseDateNone(s: string, fromDay: int)
    requires ValidOrdinal(fromDay)
    requires FirstFormat(Strip(s), TriedFormats, YearOf(fromDay)).None? && FindDateShape(Strip(s), 0).None?
    ensures TryParseDate(s, fromDay) == None
  {
  }

  /** The key of a weekly row: the ISO week label converted to a range,
      then normalised by ConvertedKey. */
  function WeeklyKey(raw: string, fromDay: int, toDay: int): (r: string)
    requires ValidOrdinal(fromDay) && ValidOrdinal(toDay)
  {
    ConvertedKey(IsoWeekToRange(raw), fromDay, toDay)
  }

  /** `_try_parse_date(text.strip()) or fallback` */
  function DateOr(text: string, fallback: int, fromDay: int): (d: int)
    requires ValidOrdinal(fallback) && ValidOrdinal(fromDay)
    ensures ValidOrdinal(d)
  {
    match TryParseDate(Strip(text), fromDay) case Some(d) => d case None => fallback
  }

  /** A converted label split, each half parsed (falling back to
      from_date and to_date), and the end cut at to_date; the start is not
      raised to from_date. A label without a separator is kept. */
  function ConvertedKey(wk: string, fromDay: int, toDay: int): (r: string)
    requires ValidOrdinal(fromDay) && ValidOrdinal(toDay)
    ensures |SplitWeek(wk)| < 2 ==> r == wk
    ensures |SplitWeek(wk)| >= 2 ==>
              exists s, e :: ValidOrdinal(s) && ValidOrdinal(e) && e <= toDay && r == RangeLabel(s, e)
  {
    var parts := SplitWeek(wk);
    if |parts| >= 2 then
      var s := DateOr(parts[0], fromDay, fromDay);
      var e0 := DateOr(parts[1], toDay, fromDay);
      var e := if e0 > toDay then toDay else e0;
      RangeLabel(s, e)
    else wk
  }

  lemma DateTextNoSpace(n: int)
    requires ValidOrdinal(n)
    ensures NoSpace(FormatOrdinal(n)) && Strip(FormatOrdinal(n)) == FormatOrdinal(n)
  {
    var t := FormatOrdinal(n);
    ValidOrdinalInRange(n);
    var d := FromOrdinal(n);
    assert t == Pad4(d.year) + "-" + Pad2(d.month) + "-" + Pad2(d.day);
    forall i | 0 <= i < |t| ensures !IsSpace(t[i]) {
      if i != 4 && i != 7 {
        assert IsDigit(t[i]);
      }
    }
    StripWithoutSpace(t);
  }

  /** A range label splits on "_to_", the first separator it contains. */
  lemma SplitWeekOfRange(s: int, e: int)
    requires ValidOrdinal(s) && ValidOrdinal(e)
    ensures SplitWeek(RangeLabel(s, e)) == [FormatOrdinal(s), FormatOrdinal(e)]
  {
    var l := RangeLabel(s, e);
    DateTextAvoids(s, ' ');
    DateTextAvoids(e, ' ');
    assert Avoids(l, ' ');
    NotContains(l, " to ");
    SplitRangeLabel(s, e);
  }

  lemma TryParseDateOfText(n: int, fallback: int, fromDay: int)
    requires ValidOrdinal(n) && ValidOrdinal(fallback) && ValidOrdinal(fromDay)
    ensures DateOr(FormatOrdinal(n), fallback, fromDay) == n
  {
    DateTextNoSpace(n);
    ParseFormat(n);
  }

  /** "%d %b %Y" and "%d-%b-%Y" text reads back as its day. */
  lemma TryParseDayMonthYear(d: Date, sep: char, fromDay: int)
    requires InRange(d) && ValidOrdinal(fromDay) && (sep == ' ' || sep == '-')
    ensures ValidOrdinal(ToOrdinal(d))
    ensures TryParseDate(Pad2(d.day) + [sep] + MonthAbbr(d.month) + [sep] + Pad4(d.year), fromDay) == Some(ToOrdinal(d))
  {
    var t := Pad2(d.day) + [sep] + MonthAbbr(d.month) + [sep] + Pad4(d.year);
    FirstFormatDayMonthYear(d, sep, YearOf(fromDay));
    assert Strip(t) == t by {
      assert !IsSpace(t[0]) && !IsSpace(t[|t| - 1]);
      StripEnds(t);
    }
    TryParseDateFirst(t, fromDay);
  }

  /** The format loop on "%d<sep>%b<sep>%Y" text: that day. */
  lemma FirstFormatDayMonthYear(d: Date, sep: char, year: int)
    requires InRange(d) && (sep == ' ' || sep == '-') && 1 <= year <= MaxYear
    ensures ValidOrdinal(ToOrdinal(d))
    ensures FirstFormat(Pad2(d.day) + [sep] + MonthAbbr(d.month) + [sep] + Pad4(d.year), TriedFormats, year) ==
            Some(ToOrdinal(d))
  {
    var t := Pad2(d.day) + [sep] + MonthAbbr(d.month) + [sep] + Pad4(d.year);
    ParseDayMonthYearOf(d, sep);
    assert |t| == 11 && t[2] == sep;
    var j := if sep == ' ' then 1 else 3;
    assert TriedFormats[j] == DayMonthYearFormat(sep);
    forall i | 0 <= i < j ensures ParseAs(t, TriedFormats[i], year).None? {
      FormatMisses(t, TriedFormats[i], year);
    }
    FirstFormatAt(t, TriedFormats, year, j);
  }

  /** "%d %b" and "%d-%b" text reads back as its day in from_date's year,
      except 29 February, which fails. */
  lemma TryParseDayMonth(d: Date, sep: char, fromDay: int)
    requires InRange(d) && ValidOrdinal(fromDay) && d.year == YearOf(fromDay) && (sep == ' ' || sep == '-')
    ensures ValidOrdinal(ToOrdinal(d))
    ensures var t := Pad2(d.day) + [sep] + MonthAbbr(d.month);
            (!(d.month == 2 && d.day == 29) ==> TryParseDate(t, fromDay) == Some(ToOrdinal(d))) &&
            (d.month == 2 && d.day == 29 ==> TryParseDate(t, fromDay) == None)
  {
    var t := Pad2(d.day) + [sep] + MonthAbbr(d.month);
    FirstFormatDayMonth(d, sep);
    assert Strip(t) == t by {
      MonthAbbrShape(d.month);
      assert !IsSpace(t[0]) && !IsSpace(t[|t| - 1]);
      StripEnds(t);
    }
    if d.month == 2 && d.day == 29 {
      assert FindDateShape(t, 0).None?;
      TryParseDateNone(t, fromDay);
    } else {
      TryParseDateFirst(t, fromDay);
    }
  }

  /** The format loop on "%d<sep>%b" text of a day of the given year: the
      day, or nothing for 29 February. */
  lemma FirstFormatDayMonth(d: Date, sep: char)
    requires InRange(d) && (sep == ' ' || sep == '-')
    ensures ValidOrdinal(ToOrdinal(d))
    ensures FirstFormat(Pad2(d.day) + [sep] + MonthAbbr(d.month), TriedFormats, d.year) ==
            if d.month == 2 && d.day == 29 then None else Some(ToOrdinal(d))
  {
    var t := Pad2(d.day) + [sep] + MonthAbbr(d.month);
    var y := d.year;
    ParseDayMonthOf(d, sep);
    var j := if sep == ' ' then 2 else 4;
    assert TriedFormats[j] == DayMonthFormat(sep);
    assert |t| == 6 && t[2] == sep;
    forall i | 0 <= i < 5 && i != j ensures ParseAs(t, TriedFormats[i], y).None? {
      FormatMisses(t, TriedFormats[i], y);
    }
    if !(d.month == 2 && d.day == 29) {
      FirstFormatAt(t, TriedFormats, y, j);
    }
  }

  /** The shape of strftime("%d %b") text: two digits, a space, a capital
      and two small letters. */
  predicate DayMonShape(x: string)
  {
    |x| == 6 && IsDigit(x[0]) && IsDigit(x[1]) && x[2] == ' ' &&
    'A' <= x[3] <= 'Z' && 'a' <= x[4] <= 'z' && 'a' <= x[5] <= 'z'
  }

  lemma DayMonShaped(n: int)
    requires n >= 1
    ensures DayMonShape(DayMon(n))
  {
    MonthAbbrShape(FromOrdinal(n).month);
  }

  /** Two day-month texts joined by " - " split back into the two. */
  lemma SplitWeekOfShapes(x: string, y: string)
    requires DayMonShape(x) && DayMonShape(y)
    ensures SplitWeek(x + " - " + y) == [x, y]
  {
    var w := x + " - " + y;
    assert |w| == 15;
    assert forall j :: 0 <= j < 6 ==> w[j] == x[j];
    assert forall j :: 9 <= j < 15 ==> w[j] == y[j - 9];
    assert IndexFrom(w, " to ", 0).None? by {
      forall j | 0 <= j < |w| - 1 ensures !(w[j] == ' ' && w[j + 1] == 't') {
      }
      NotContainsPair(w, " to ");
    }
    assert IndexFrom(w, "_to_", 0).None? by {
      NotContains(w, "_to_");
    }
    assert Split(w, " - ") == [x, y] by {
      assert w[6..9] == " - ";
      assert forall j :: 0 <= j < 6 ==> !OccursAt(w, " - ", j);
      assert w[..6] == x && w[9..] == y;
      NotContainsPair(y, " - ");
      SplitOnce(w, " - ", 6);
    }
  }

  /** A week labelled "dd Mon - dd Mon" with both days in from_date's year
      (and neither 29 February) is keyed by its two days, the end cut at
      to_date. */
  lemma ConvertedKeyOfDayMon(a: int, b: int, fromDay: int, toDay: int)
    requires ValidOrdinal(fromDay) && ValidOrdinal(toDay) && ValidOrdinal(a) && ValidOrdinal(b)
    requires FromOrdinal(a).year == YearOf(fromDay) && FromOrdinal(b).year == YearOf(fromDay)
    requires !(FromOrdinal(a).month == 2 && FromOrdinal(a).day == 29)
    requires !(FromOrdinal(b).month == 2 && FromOrdinal(b).day == 29)
    ensures ConvertedKey(DayMon(a) + " - " + DayMon(b), fromDay, toDay) == RangeLabel(a, if b > toDay then toDay else b)
  {
    DayMonShaped(a);
    DayMonShaped(b);
    SplitWeekOfShapes(DayMon(a), DayMon(b));
    assert DateOr(DayMon(a), fromDay, fromDay) == a by {
      DayMonParses(a, fromDay);
    }
    assert DateOr(DayMon(b), toDay, fromDay) == b by {
      DayMonParses(b, fromDay);
    }
  }

  /** A day-month text of from_date's year reads back as its day. */
  lemma DayMonParses(a: int, fromDay: int)
    requires ValidOrdinal(fromDay) && ValidOrdinal(a) && FromOrdinal(a).year == YearOf(fromDay)
    requires !(FromOrdinal(a).month == 2 && FromOrdinal(a).day == 29)
    ensures Strip(DayMon(a)) == DayMon(a) && TryParseDate(DayMon(a), fromDay) == Some(a)
  {
    var d := FromOrdinal(a);
    ValidOrdinalInRange(a);
    assert DayMon(a) == Pad2(d.day) + [' '] + MonthAbbr(d.month);
    TryParseDayMonth(d, ' ', fromDay);
    DayMonShaped(a);
    StripEnds(DayMon(a));
  }

  /** A day-month text naming a day that does not exist, such as
      "30 Feb", is no date in any format, so the caller falls back. */
  lemma TryParseNoSuchDay(day: int, m: int, fromDay: int)
    requires ValidOrdinal(fromDay) && 0 <= day < 100 && 1 <= m <= 12 && !IsCivil(Date(1900, m, day))
    ensures TryParseDate(Pad2(day) + " " + MonthAbbr(m), fromDay) == None
  {
    var t := Pad2(day) + " " + MonthAbbr(m);
    var y := YearOf(fromDay);
    assert |t| == 6 && t[2] == ' ';
    MonthAbbrShape(m);
    assert !IsSpace(t[0]) && !IsSpace(t[5]);
    StripEnds(t);
    ParseDayMonthNoSuchDay(day, m, ' ', y);
    forall i | 0 <= i < 5 ensures ParseAs(t, TriedFormats[i], y).None? {
      FormatMisses(t, TriedFormats[i], y);
    }
    TryParseDateNone(t, fromDay);
  }

  /** The key of the range s_to_e: s, and e cut at to_date. */
  lemma ConvertedKeyOfRange(s: int, e: int, fromDay: int, toDay: int)
    requires ValidOrdinal(fromDay) && ValidOrdinal(toDay) && ValidOrdinal(s) && ValidOrdinal(e)
    ensures ConvertedKey(RangeLabel(s, e), fromDay, toDay) == RangeLabel(s, if e > toDay then toDay else e)
  {
    SplitWeekOfRange(s, e);
    TryParseDateOfText(s, fromDay, fromDay);
    TryParseDateOfText(e, toDay, fromDay);
  }

  /** A row labelled with ISO week w of year y is keyed by that week's
      Monday and its Sunday or to_date, whichever is earlier. */
  lemma WeeklyKeyOfIsoWeek(y: int, w: int, m: int, fromDay: int, toDay: int)
    requires ValidOrdinal(fromDay) && ValidOrdinal(toDay)
    requires 1 <= y <= MaxYear && 1 <= w <= WeeksInIsoYear(y)
    requires m == Week1Monday(y) + 7 * (w - 1) && ValidOrdinal(m + 6)
    ensures ValidOrdinal(m)
    ensures WeeklyKey(Pad4(y) + "-" + Pad2(w), fromDay, toDay) == RangeLabel(m, if m + 6 > toDay then toDay else m + 6)
  {
    IsoWeekToRangeOfWeek(y, w, m);
    WeeklyKeyOfLabel(Pad4(y) + "-" + Pad2(w), m, fromDay, toDay);
  }

  /** A weekly label that converts to the week of Monday m is keyed by m
      and its Sunday or to_date, whichever is earlier. */
  lemma WeeklyKeyOfLabel(text: string, m: int, fromDay: int, toDay: int)
    requires ValidOrdinal(fromDay) && ValidOrdinal(toDay) && ValidOrdinal(m) && ValidOrdinal(m + 6)
    requires IsoWeekToRange(text) == WeekLabel(m)
    ensures WeeklyKey(text, fromDay, toDay) == RangeLabel(m, if m + 6 > toDay then toDay else m + 6)
  {
    ConvertedKeyOfRange(m, m + 6, fromDay, toDay);
  }

  /** The same, for a weekly row carrying that label. */
  lemma PeriodFinalOfIsoWeek(y: int, w: int, m: int, fromDay: int, toDay: int, r: SalesRow)
    requires ValidOrdinal(fromDay) && ValidOrdinal(toDay)
    requires 1 <= y <= MaxYear && 1 <= w <= WeeksInIsoYear(y)
    requires m == Week1Monday(y) + 7 * (w - 1) && ValidOrdinal(m + 6)
    requires r.period == Pad4(y) + "-" + Pad2(w)
    ensures ValidOrdinal(m)
    ensures PeriodFinal(r, Weekly, fromDay, toDay) == RangeLabel(m, if m + 6 > toDay then toDay else m + 6)
  {
    WeeklyKeyOfIsoWeek(y, w, m, fromDay, toDay);
  }

  /** A label with none of the separators that is not an ISO week passes
      through unchanged. */
  lemma WeeklyKeyPassThrough(raw: string, fromDay: int, toDay: int)
    requires ValidOrdinal(fromDay) && ValidOrdinal(toDay)
    requires IsoWeekToRange(raw) == raw
    requires forall i :: 0 <= i < |raw| ==> raw[i] != ' ' && raw[i] != '_' && raw[i] != '/'
    ensures WeeklyKey(raw, fromDay, toDay) == raw
  {
    assert SplitWeek(raw) == [raw] by {
      NotContains(raw, " to ");
      NotContains(raw, "_to_");
      NotContains(raw, " - ");
      NotContains(raw, "_");
      NotContains(raw, "/");
    }
  }

  /** The label a row's value is summed under. */
  function PeriodFinal(r: SalesRow, g: Granularity, fromDay: int, toDay: int): string
    requires ValidOrdinal(fromDay) && ValidOrdinal(toDay)
  {
    if g == Weekly then WeeklyKey(r.period, fromDay, toDay) else r.period
  }

  /** PeriodFinal as a function of the row alone, for one export's
      granularity and window; the row loop below is stated for any such
      key. */
  function RowPeriodKey(g: Granularity, fromDay: int, toDay: int): SalesRow -> string
    requires ValidOrdinal(fromDay) && ValidOrdinal(toDay)
  {
    r => PeriodFinal(r, g, fromDay, toDay)
  }

  /** The contribution of one row: its item, its period key and its value. */
  function ContributionOf(r: SalesRow, key: SalesRow -> string): Contribution<string>
  {
    Contribution(KeyOf(r), key(r), ValueOf(r))
  }

  function Contributions(rows: seq<SalesRow>, key: SalesRow -> string): seq<Contribution<string>>
  {
    seq(|rows|, i requires 0 <= i < |rows| => ContributionOf(rows[i], key))
  }

  /** The period keys of the rows (periods_set). */
  function PeriodsOf(rows: seq<SalesRow>, key: SalesRow -> string): set<string>
  {
    ColumnSet(Contributions(rows, key))
  }

  lemma PeriodsOfMembers(rows: seq<SalesRow>, key: SalesRow -> string)
    ensures forall p :: p in PeriodsOf(rows, key) <==>
              exists i :: 0 <= i < |rows| && key(rows[i]) == p
  {
    var cs := Contributions(rows, key);
    ColumnSetMembers(cs);
    forall p | p in PeriodsOf(rows, key)
      ensures exists i :: 0 <= i < |rows| && key(rows[i]) == p
    {
      var i :| 0 <= i < |cs| && cs[i].column == p;
      assert key(rows[i]) == p;
    }
    forall p | exists i :: 0 <= i < |rows| && key(rows[i]) == p
      ensures p in PeriodsOf(rows, key)
    {
      var i :| 0 <= i < |rows| && key(rows[i]) == p;
      assert cs[i].column == p;
    }
  }

  lemma ContributionsSnoc(rows: seq<SalesRow>, i: nat, key: SalesRow -> string)
    requires i < |rows|
    ensures Contributions(rows[..i + 1], key) ==
            Contributions(rows[..i], key) + [ContributionOf(rows[i], key)]
  {
    var a := Contributions(rows[..i + 1], key);
    var b := Contributions(rows[..i], key) + [ContributionOf(rows[i], key)];
    forall k | 0 <= k < |a| ensures a[k] == b[k] {
      assert rows[..i + 1][k] == rows[k];
    }
  }

  // ----- the entity fan-out -----

  /** An entity_map key: an id, or ("route", id) / ("salesman", id). */
  datatype EntityKey = Plain(id: int) | Tagged(kind: string, id: int)

  /** The column holding each row's entity (entity_col); None for
      route_salesman, which is routed by hand. */
  function EntityColumn(deep: Level): Option<string>
  {
    match deep
    case Warehouse => Some("warehouse_id")
    case RouteSalesman => None
    case Region => Some("region_id")
    case Area => Some("area_id")
    case CustomerChannel => Some("channel_id")
    case CustomerCategory => Some("customer_category_id")
    case Customer => Some("customer_id")
    case _ => Some("company_id")
  }

  /** Python truthiness of an id read with r.get: present and non-zero. */
  predicate Truthy(v: Option<int>) { v.Some? && v.value != 0 }

  /** The entity_map keys a row is added under. */
  function Targets(r: SalesRow, deep: Level, sel: Selection): seq<EntityKey>
  {
    if deep == RouteSalesman then
      (if sel.routeIds != [] && Truthy(Get(r, "route_id")) then [Tagged("route", Get(r, "route_id").value)] else []) +
      (if sel.salesmanIds != [] && Truthy(Get(r, "salesman_id")) then [Tagged("salesman", Get(r, "salesman_id").value)] else [])
    else
      match EntityColumn(deep)
      case Some(col) => if Get(r, col).Some? then [Plain(Get(r, col).value)] else []
      case None => []
  }

  function RoutedRows(rows: seq<SalesRow>, key: SalesRow -> string, deep: Level, sel: Selection)
    : seq<Routed<EntityKey, string>>
  {
    seq(|rows|, i requires 0 <= i < |rows| => Routed(Targets(rows[i], deep, sel), ContributionOf(rows[i], key)))
  }

  /** For a level with an entity column, a row is routed to the entity in
      that column whenever the column is not NULL; for route_salesman, to
      its route when routes were requested and its salesman when salesmen
      were, so possibly to both. */
  lemma TargetsSpec(r: SalesRow, deep: Level, sel: Selection)
    ensures NoDup(Targets(r, deep, sel))
    ensures deep != RouteSalesman ==>
              var col := EntityColumn(deep).value;
              (Targets(r, deep, sel) != [] <==> Get(r, col).Some?) &&
              (Get(r, col).Some? ==> Targets(r, deep, sel) == [Plain(Get(r, col).value)])
    ensures deep == RouteSalesman ==>
              |Targets(r, deep, sel)| <= 2 &&
              (Tagged("route", Get(r, "route_id").value) in Targets(r, deep, sel) <== sel.routeIds != [] && Truthy(Get(r, "route_id"))) &&
              (Tagged("salesman", Get(r, "salesman_id").value) in Targets(r, deep, sel) <== sel.salesmanIds != [] && Truthy(Get(r, "salesman_id"))) &&
              forall t :: t in Targets(r, deep, sel) ==>
                t.Tagged? && t.id != 0 &&
                ((t.kind == "route" && sel.routeIds != [] && Get(r, "route_id") == Some(t.id)) ||
                 (t.kind == "salesman" && sel.salesmanIds != [] && Get(r, "salesman_id") == Some(t.id)))
  {
  }

  // ----- the row loop -----

  /** The loop over the rows: the summary and company pivots receive the
      same additions, the set of keys seen, and the entity fan-out. */
  method FoldRows(rows: seq<SalesRow>, key: SalesRow -> string, deep: Level, sel: Selection)
    returns (summary: PivotMap<string>, company: PivotMap<string>, periods: set<string>,
             entities: EntityPivot<EntityKey, string>)
    ensures summary == PivotOf(Contributions(rows, key))
    ensures company == summary
    ensures periods == PeriodsOf(rows, key)
    ensures entities == FanOut(RoutedRows(rows, key, deep, sel))
  {
    summary := PivotMap([], map[]);
    company := PivotMap([], map[]);
    periods := {};
    entities := EntityPivot([], map[]);
    var i := 0;
    while i < |rows|
      invariant 0 <= i <= |rows|
      invariant summary == PivotOf(Contributions(rows[..i], key))
      invariant company == summary
      invariant periods == PeriodsOf(rows[..i], key)
      invariant entities == FanOut(RoutedRows(rows[..i], key, deep, sel))
    {
      summary, company, periods, entities := FoldStep(rows, i, key, deep, sel, summary, company, periods, entities);
      i := i + 1;
    }
    assert rows[..i] == rows;
  }

  /** One pass of the row loop. */
  method FoldStep(rows: seq<SalesRow>, i: nat, key: SalesRow -> string, deep: Level, sel: Selection,
                  summary: PivotMap<string>, company: PivotMap<string>, periods: set<string>,
                  entities: EntityPivot<EntityKey, string>)
    returns (summary': PivotMap<string>, company': PivotMap<string>, periods': set<string>,
             entities': EntityPivot<EntityKey, string>)
    requires i < |rows|
    requires summary == PivotOf(Contributions(rows[..i], key))
    requires company == summary
    requires periods == PeriodsOf(rows[..i], key)
    requires entities == FanOut(RoutedRows(rows[..i], key, deep, sel))
    ensures summary' == PivotOf(Contributions(rows[..i + 1], key))
    ensures company' == summary'
    ensures periods' == PeriodsOf(rows[..i + 1], key)
    ensures entities' == FanOut(RoutedRows(rows[..i + 1], key, deep, sel))
  {
    var r := rows[i];
    var c := ContributionOf(r, key);
    ContributionsSnoc(rows, i, key);
    RoutedSnoc(rows, i, key, deep, sel);
    assert rows[..i + 1][..i] == rows[..i];
    ColumnSetSnoc(Contributions(rows[..i], key), c);
    periods' := periods + {c.column};
    summary' := AddRow(summary, c);
    company' := AddRow(company, c);
    entities' := AddTargets(entities, Targets(r, deep, sel), c);
  }

  lemma RoutedSnoc(rows: seq<SalesRow>, i: nat, key: SalesRow -> string, deep: Level, sel: Selection)
    requires i < |rows|
    ensures RoutedRows(rows[..i + 1], key, deep, sel) ==
            RoutedRows(rows[..i], key, deep, sel) + [Routed(Targets(rows[i], deep, sel), ContributionOf(rows[i], key))]
  {
    var a, b := RoutedRows(rows[..i + 1], key, deep, sel), RoutedRows(rows[..i], key, deep, sel);
    var x := Routed(Targets(rows[i], deep, sel), ContributionOf(rows[i], key));
    forall k | 0 <= k < i + 1 ensures a[k] == (b + [x])[k] {
      assert rows[..i + 1][k] == rows[k];
      if k < i {
        assert rows[..i][k] == rows[k];
      }
    }
  }

  /** The up to two setdefault/+= steps of one row's fan-out. */
  method AddTargets(ep: EntityPivot<EntityKey, string>, ts: seq<EntityKey>, c: Contribution<string>)
    returns (r: EntityPivot<EntityKey, string>)
    ensures r == AddAll(ep, ts, c)
  {
    r := ep;
    var k := 0;
    while k < |ts|
      invariant 0 <= k <= |ts| && r == AddAll(ep, ts[..k], c)
    {
      AddAllSnoc(ep, ts, k, c);
      r := AddToEntity(r, ts[k], c);
      k := k + 1;
    }
    assert ts[..k] == ts;
  }

  /** The summary pivot: each item once in first-seen order, each cell the
      sum of the values of the rows with that item and period key. */
  lemma SummaryCells(rows: seq<SalesRow>, key: SalesRow -> string)
    ensures var cs := Contributions(rows, key);
            var pm := PivotOf(cs);
            WellFormed(pm) && pm.order == Dedup(seq(|rows|, i requires 0 <= i < |rows| => KeyOf(rows[i]))) &&
            forall k, p :: k in pm.cells ==> Cell(pm.cells[k], p) == SumWhere(cs, k, p)
  {
    var cs := Contributions(rows, key);
    PivotOfOrder(cs);
    PivotOfCells(cs);
    assert KeysOf(cs) == seq(|rows|, i requires 0 <= i < |rows| => KeyOf(rows[i]));
  }

  /** Each entity pivot is the pivot of the rows routed to that entity. */
  lemma EntityPivots(rows: seq<SalesRow>, key: SalesRow -> string, deep: Level, sel: Selection)
    ensures var rs := RoutedRows(rows, key, deep, sel);
            var ep := FanOut(rs);
            ep.order == Dedup(AllTargets(rs)) &&
            forall e :: e in ep.maps ==> ep.maps[e] == PivotOf(ContribsFor(rs, e))
  {
    var rs := RoutedRows(rows, key, deep, sel);
    forall i | 0 <= i < |rs| ensures NoDup(rs[i].targets) {
      TargetsSpec(rows[i], deep, sel);
    }
    FanOutSpec(rs);
  }
}
