/** The request handling both xlsx exports share
    (sales_report/routes/export_xlsx.py and item_report/routes/item_export.py):
    the two dates, the search type, the company default, the data view, and
    the WHERE list that the `_add` closure numbers `$3, $4, ...`. */
module ExportRequest {
  import opened Wrappers
  import opened Text
  import opened Calendar
  import opened Granularity
  import opened Sql

  const DatesMessage := "Dates must be YYYY-MM-DD"
  const NoDataMessage := "No data found"

  /** strptime(..., "%Y-%m-%d") of both dates; either failing is a 400. */
  function ParseDates(fromDate: string, toDate: string): (r: Result<(int, int)>)
    ensures r.Ok? <==> ParseIsoDate(fromDate).Some? && ParseIsoDate(toDate).Some?
    ensures r.Err? ==> r.failure == BadRequest(DatesMessage)
    ensures r.Ok? ==> ValidOrdinal(r.value.0) && ValidOrdinal(r.value.1)
  {
    match (ParseIsoDate(fromDate), ParseIsoDate(toDate))
    case (Some(a), Some(b)) => Ok((a, b))
    case _ => Err(BadRequest(DatesMessage))
  }

  /** Two days written as YYYY-MM-DD are read back as the same days. */
  lemma ParseDatesOfText(a: int, b: int)
    requires ValidOrdinal(a) && ValidOrdinal(b)
    ensures ParseDates(FormatOrdinal(a), FormatOrdinal(b)) == Ok((a, b))
  {
    ParseFormat(a);
    ParseFormat(b);
  }

  /** (search_type or "quantity").lower(), which must be "quantity" or
      "amount"; `message` is the detail of the 400 the route raises. */
  function SearchType(st: Option<string>, message: string): (r: Result<string>)
    ensures st.None? || st == Some("") ==> r == Ok("quantity")
    ensures st.Some? && st.value != "" ==>
              (r.Ok? <==> Lower(st.value) == "quantity" || Lower(st.value) == "amount")
    ensures r.Ok? ==> r.value == "quantity" || r.value == "amount"
    ensures r.Err? ==> r.failure == BadRequest(message)
  {
    var s := if st.None? || st.value == "" then "quantity" else Lower(st.value);
    if s == "quantity" || s == "amount" then Ok(s) else Err(BadRequest(message))
  }

  lemma LowerIdempotent(s: string)
    ensures Lower(Lower(s)) == Lower(s)
  {
  }

  /** The search type is read without regard to case. */
  lemma SearchTypeIgnoresCase(s: string, message: string)
    ensures SearchType(Some(s), message) == SearchType(Some(Lower(s)), message)
  {
    LowerIdempotent(s);
  }

  /** `if not payload.company_ids: payload.company_ids = [1]` */
  function CompanyIds(ids: seq<int>): (r: seq<int>)
    ensures r != []
    ensures ids != [] ==> r == ids
    ensures ids == [] ==> r == [1]
  {
    if ids == [] then [1] else ids
  }

  /** The default view: no data view, or one that reads "default" once
      stripped and lower-cased. */
  predicate IsDefaultView(dv: Option<string>)
  {
    dv.None? || Lower(Strip(dv.value)) == "default"
  }

  /** The granularity a lower-cased data view names, if any. */
  function NamedGranularity(s: string): (r: Option<Granularity>)
    ensures r.Some? <==> s in ["daily", "weekly", "monthly", "yearly"]
  {
    if s == "daily" then Some(Daily)
    else if s == "weekly" then Some(Weekly)
    else if s == "monthly" then Some(Monthly)
    else if s == "yearly" then Some(Yearly)
    else None
  }

  function GranularityName(g: Granularity): string
  {
    match g
    case Daily => "daily"
    case Weekly => "weekly"
    case Monthly => "monthly"
    case Yearly => "yearly"
  }

  /** A data view is honoured only when its lower-case form names a
      granularity; otherwise the export rule picks one from the dates. */
  function Dataview(dv: Option<string>, fromDay: int, toDay: int): (g: Granularity)
    ensures dv.Some? && NamedGranularity(Lower(dv.value)).Some? ==> g == NamedGranularity(Lower(dv.value)).value
    ensures dv.None? || NamedGranularity(Lower(dv.value)).None? ==> g == ExportGranularity(fromDay, toDay)
  {
    if dv.Some? && dv.value != "" && NamedGranularity(Lower(dv.value)).Some? then
      NamedGranularity(Lower(dv.value)).value
    else ExportGranularity(fromDay, toDay)
  }

  /** Naming a granularity, in any case, selects it. */
  lemma DataviewOfName(g: Granularity, s: string, fromDay: int, toDay: int)
    requires Lower(s) == GranularityName(g)
    ensures Dataview(Some(s), fromDay, toDay) == g
  {
  }

  /** A data view that names a granularity is never the default view, so
      the two outcomes of the data view are exclusive. */
  lemma NamedViewIsNotDefault(s: string)
    requires NamedGranularity(Lower(s)).Some?
    ensures !IsDefaultView(Some(s))
  {
    var l := Lower(s);
    NamesAreLetters(l);
    forall i | 0 <= i < |s| ensures !IsSpace(s[i]) {
      assert l[i] == LowerChar(s[i]);
    }
    StripWithoutSpace(s);
  }

  lemma NamesAreLetters(l: string)
    requires NamedGranularity(l).Some?
    ensures l != "default" && forall i :: 0 <= i < |l| ==> 'a' <= l[i] <= 'z'
  {
  }

  // ----- the `$k` WHERE list -----

  /** One `_add(col, vals)` call. */
  datatype AnyFilter = AnyFilter(col: string, ids: seq<int>)

  /** where_parts, params and the next placeholder number idx. */
  datatype Where = Where(parts: seq<Pred>, params: seq<Value>, next: nat)

  const InvoiceDate := "ms.invoice_date"

  /** ["ms.invoice_date BETWEEN $1 AND $2"], [from_date, to_date], idx = 3 */
  function Start(fromDay: int, toDay: int): Where
  {
    Where([BetweenPos(InvoiceDate, 1, 2)], [Day(fromDay), Day(toDay)], 3)
  }

  /** What one `_add` call does to the list. */
  function AddStep(w: Where, f: AnyFilter): Where
  {
    if f.ids != [] then Where(w.parts + [AnyPos(f.col, w.next)], w.params + [Ids(f.ids)], w.next + 1)
    else w
  }

  /** A sequence of `_add` calls, in order. */
  function Assemble(w: Where, fs: seq<AnyFilter>): Where
  {
    if |fs| == 0 then w else AddStep(Assemble(w, fs[..|fs| - 1]), fs[|fs| - 1])
  }

  lemma AssemblePrefix(w: Where, fs: seq<AnyFilter>, k: nat)
    requires k < |fs|
    ensures Assemble(w, fs[..k + 1]) == AddStep(Assemble(w, fs[..k]), fs[k])
  {
    assert fs[..k + 1][..k] == fs[..k];
  }

  /** The `_add` closure: appends `col = ANY($idx)` and the list when the
      list is non-empty, and moves idx on. */
  method AddAny(parts: seq<Pred>, params: seq<Value>, idx: nat, col: string, vals: seq<int>)
    returns (parts': seq<Pred>, params': seq<Value>, idx': nat)
    ensures Where(parts', params', idx') == AddStep(Where(parts, params, idx), AnyFilter(col, vals))
  {
    parts', params', idx' := parts, params, idx;
    if vals != [] {
      parts' := parts' + [AnyPos(col, idx')];
      params' := params' + [Ids(vals)];
      idx' := idx' + 1;
    }
  }

  /** The k-th `_add` call: it extends the WHERE list built by the calls
      before it. */
  method AddFilter(parts: seq<Pred>, params: seq<Value>, idx: nat, ghost w0: Where, ghost fs: seq<AnyFilter>,
                   ghost k: nat, col: string, vals: seq<int>)
    returns (parts': seq<Pred>, params': seq<Value>, idx': nat)
    requires k < |fs| && fs[k] == AnyFilter(col, vals)
    requires Where(parts, params, idx) == Assemble(w0, fs[..k])
    ensures Where(parts', params', idx') == Assemble(w0, fs[..k + 1])
  {
    parts', params', idx' := AddAny(parts, params, idx, col, vals);
    AssemblePrefix(w0, fs, k);
  }

  /** The filters whose lists are non-empty, in call order. */
  function NonEmpty(fs: seq<AnyFilter>): (r: seq<AnyFilter>)
    ensures |r| <= |fs|
    ensures forall j :: 0 <= j < |r| ==> r[j] in fs && r[j].ids != []
  {
    if |fs| == 0 then []
    else NonEmpty(fs[..|fs| - 1]) + (if fs[|fs| - 1].ids != [] then [fs[|fs| - 1]] else [])
  }

  /** A filter with a non-empty list is kept. */
  lemma {:induction false} NonEmptyKeeps(fs: seq<AnyFilter>, f: AnyFilter)
    requires f in fs && f.ids != []
    ensures f in NonEmpty(fs)
  {
    var n := |fs| - 1;
    if fs[n] != f {
      assert f in fs[..n] by {
        var k :| 0 <= k < |fs| && fs[k] == f;
        assert fs[..n][k] == f;
      }
      NonEmptyKeeps(fs[..n], f);
    }
  }

  /** After the calls, the k-th new fragment is `col = ANY($(next + k))` for
      the k-th non-empty filter and the k-th new parameter is its list;
      empty lists add nothing. */
  lemma {:induction false} AssembleShape(w: Where, fs: seq<AnyFilter>)
    ensures var r := Assemble(w, fs);
            var ne := NonEmpty(fs);
            |r.parts| == |w.parts| + |ne| && |r.params| == |w.params| + |ne| &&
            r.next == w.next + |ne| &&
            r.parts[..|w.parts|] == w.parts && r.params[..|w.params|] == w.params &&
            (forall k :: 0 <= k < |ne| ==>
               r.parts[|w.parts| + k] == AnyPos(ne[k].col, w.next + k) &&
               r.params[|w.params| + k] == Ids(ne[k].ids))
  {
    if |fs| > 0 {
      var n := |fs| - 1;
      AssembleShape(w, fs[..n]);
    }
  }

  function Iota(start: nat, n: nat): (r: seq<nat>)
    ensures |r| == n && forall k :: 0 <= k < n ==> r[k] == start + k
  {
    seq(n, k requires 0 <= k < n => start + k)
  }

  /** The placeholders are $1, $2, ... $n in order, n = len(params), and idx
      is n + 1. */
  predicate Consecutive(w: Where)
  {
    AllPositions(w.parts) == Iota(1, |w.params|) && w.next == |w.params| + 1
  }

  lemma AllPositionsSnoc(ps: seq<Pred>, p: Pred)
    ensures AllPositions(ps + [p]) == AllPositions(ps) + Positions(p)
  {
    assert (ps + [p])[..|ps|] == ps;
  }

  lemma StartConsecutive(fromDay: int, toDay: int)
    ensures Consecutive(Start(fromDay, toDay))
  {
    assert AllPositions([BetweenPos(InvoiceDate, 1, 2)]) == AllPositions([]) + [1, 2];
  }

  /** Every `_add` call keeps the placeholders numbered consecutively. */
  lemma {:induction false} AssembleConsecutive(w: Where, fs: seq<AnyFilter>)
    requires Consecutive(w)
    ensures Consecutive(Assemble(w, fs))
  {
    if |fs| > 0 {
      var n := |fs| - 1;
      AssembleConsecutive(w, fs[..n]);
      StepConsecutive(Assemble(w, fs[..n]), fs[n]);
    }
  }

  /** One `_add` call keeps the numbering consecutive. */
  lemma StepConsecutive(v: Where, f: AnyFilter)
    requires Consecutive(v)
    ensures Consecutive(AddStep(v, f))
  {
    if f.ids != [] {
      AllPositionsSnoc(v.parts, AnyPos(f.col, v.next));
      assert Iota(1, |v.params| + 1) == Iota(1, |v.params|) + [v.next];
    }
  }

  /** A fragment without placeholders leaves the numbering as it is. */
  lemma FixedConsecutive(w: Where, text: string)
    requires Consecutive(w)
    ensures Consecutive(Where(w.parts + [Fixed(text)], w.params, w.next))
  {
    AllPositionsSnoc(w.parts, Fixed(text));
  }

  /** What the calls leave, read back: the date range is $1 and $2 and
      the numbering runs on without gaps. */
  lemma AssembledWhere(fromDay: int, toDay: int, fs: seq<AnyFilter>)
    ensures var w := Assemble(Start(fromDay, toDay), fs);
            Consecutive(w) && |w.parts| + 1 == |w.params| &&
            w.parts[0] == BetweenPos(InvoiceDate, 1, 2) && w.params[..2] == [Day(fromDay), Day(toDay)]
  {
    var w0 := Start(fromDay, toDay);
    var w := Assemble(w0, fs);
    AssembleShape(w0, fs);
    StartConsecutive(fromDay, toDay);
    AssembleConsecutive(w0, fs);
    assert w.parts[0] == w.parts[..1][0];
  }

  /** Every non-empty filter has exactly one `col = ANY($k)` whose list is
      params[k - 1]... */
  lemma AssembledFilters(fromDay: int, toDay: int, fs: seq<AnyFilter>)
    ensures var w := Assemble(Start(fromDay, toDay), fs);
            forall f :: f in fs && f.ids != [] ==>
              exists j :: 1 <= j < |w.parts| && j + 1 < |w.params| &&
                w.parts[j] == AnyPos(f.col, j + 2) && w.params[j + 1] == Ids(f.ids)
  {
    var w0 := Start(fromDay, toDay);
    var w := Assemble(w0, fs);
    var ne := NonEmpty(fs);
    AssembleShape(w0, fs);
    forall f | f in fs && f.ids != []
      ensures exists j :: 1 <= j < |w.parts| && j + 1 < |w.params| &&
                w.parts[j] == AnyPos(f.col, j + 2) && w.params[j + 1] == Ids(f.ids)
    {
      NonEmptyKeeps(fs, f);
      var k :| 0 <= k < |ne| && ne[k] == f;
      assert w.parts[1 + k] == AnyPos(f.col, (1 + k) + 2);
      assert w.params[2 + k] == Ids(f.ids);
    }
  }

  /** ...and every fragment after the first is one of those. */
  lemma AssembledParts(fromDay: int, toDay: int, fs: seq<AnyFilter>)
    ensures var w := Assemble(Start(fromDay, toDay), fs);
            forall j :: 1 <= j < |w.parts| ==>
              j + 1 < |w.params| &&
              exists f :: f in fs && f.ids != [] && w.parts[j] == AnyPos(f.col, j + 2) && w.params[j + 1] == Ids(f.ids)
  {
    var w := Assemble(Start(fromDay, toDay), fs);
    var ne := NonEmpty(fs);
    AssembleShape(Start(fromDay, toDay), fs);
    forall j | 1 <= j < |w.parts|
      ensures j + 1 < |w.params| &&
              exists f :: f in fs && f.ids != [] && w.parts[j] == AnyPos(f.col, j + 2) && w.params[j + 1] == Ids(f.ids)
    {
      var k := j - 1;
      var f := ne[k];
      assert f in fs && f.ids != [];
      assert w.parts[j] == AnyPos(f.col, j + 2) by {
        assert w.parts[1 + k] == AnyPos(ne[k].col, 3 + k);
      }
      assert w.params[j + 1] == Ids(f.ids) by {
        assert w.params[2 + k] == Ids(ne[k].ids);
      }
    }
  }

  /** A non-empty first filter is the first one kept. */
  lemma {:induction false} NonEmptyHead(fs: seq<AnyFilter>)
    requires |fs| > 0 && fs[0].ids != []
    ensures |NonEmpty(fs)| > 0 && NonEmpty(fs)[0] == fs[0]
  {
    var n := |fs| - 1;
    if n > 0 {
      NonEmptyHead(fs[..n]);
    }
  }

  /** A non-empty first filter is always `$3`. */
  lemma AssembleFirst(fromDay: int, toDay: int, fs: seq<AnyFilter>)
    requires |fs| > 0 && fs[0].ids != []
    ensures var w := Assemble(Start(fromDay, toDay), fs);
            |w.parts| > 1 && |w.params| > 2 && w.parts[1] == AnyPos(fs[0].col, 3) && w.params[2] == Ids(fs[0].ids)
  {
    AssembleShape(Start(fromDay, toDay), fs);
    NonEmptyHead(fs);
  }

  /** The free-good predicate applies to quantity reports whose
      display_quantity is exactly "without_free_good". */
  predicate FreeGood(searchType: string, dq: Option<string>)
  {
    searchType == "quantity" && dq == Some("without_free_good")
  }
}
