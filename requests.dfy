/** Request input handling shared by the report helpers: parse_csv_ids
    (the same code in every helper module) and the validate_mandatory
    checks. */
module Requests {
  import opened Wrappers
  import opened Text
  import opened Calendar

  /** The stripped, non-blank pieces of a comma-separated text. */
  function KeepNonBlank(raw: seq<string>): (ps: seq<string>)
    ensures forall i :: 0 <= i < |ps| ==> ps[i] != ""
  {
    if |raw| == 0 then []
    else (if Strip(raw[0]) != "" then [Strip(raw[0])] else []) + KeepNonBlank(raw[1..])
  }

  function Pieces(s: string): (ps: seq<string>)
    ensures forall i :: 0 <= i < |ps| ==> ps[i] != ""
  {
    KeepNonBlank(Split(s, ","))
  }

  /** int() of every piece; None as soon as one piece is not an integer. */
  function ParseEach(ps: seq<string>): (r: Option<seq<int>>)
    ensures r.Some? <==> forall i :: 0 <= i < |ps| ==> ParseInt(ps[i]).Some?
    ensures r.Some? ==> |r.value| == |ps| && forall i :: 0 <= i < |ps| ==> r.value[i] == ParseInt(ps[i]).value
  {
    MapSome(ParseInt, ps)
  }

  /** parse_csv_ids: None for an absent or empty text or for a piece that
      is not an integer; otherwise the integers in the order written,
      blank pieces skipped. */
  function ParseCsvIds(s: Option<string>): (r: Option<seq<int>>)
    ensures s.None? || s == Some("") ==> r.None?
    ensures r.Some? <==> s.Some? && s.value != "" &&
                         forall i :: 0 <= i < |Pieces(s.value)| ==> ParseInt(Pieces(s.value)[i]).Some?
    ensures r.Some? ==> |r.value| == |Pieces(s.value)| &&
                        forall i :: 0 <= i < |r.value| ==> r.value[i] == ParseInt(Pieces(s.value)[i]).value
  {
    if s.None? || s.value == "" then None else ParseEach(Pieces(s.value))
  }

  function IdTexts(ids: seq<int>): (ts: seq<string>)
    ensures |ts| == |ids| && forall i :: 0 <= i < |ids| ==> ts[i] == IntToString(ids[i])
  {
    if |ids| == 0 then [] else [IntToString(ids[0])] + IdTexts(ids[1..])
  }

  lemma {:induction false} KeepNonBlankOfIds(ids: seq<int>)
    ensures KeepNonBlank(IdTexts(ids)) == IdTexts(ids)
  {
    if |ids| > 0 {
      var t := IntToString(ids[0]);
      StripWithoutSpace(t);
      assert IdTexts(ids)[1..] == IdTexts(ids[1..]);
      KeepNonBlankOfIds(ids[1..]);
    }
  }

  lemma IdTextAvoidsComma(i: int)
    ensures Avoids(IntToString(i), ',')
  {
    var t := IntToString(i);
    if i < 0 {
      var ds := NatToString(-i);
      assert t == "-" + ds;
      forall k | 0 <= k < |t| ensures t[k] != ',' {
        if k > 0 {
          assert t[k] == ds[k - 1];
        }
      }
    }
  }

  lemma ParseEachIds(ids: seq<int>)
    ensures ParseEach(IdTexts(ids)) == Some(ids)
  {
    var ts := IdTexts(ids);
    forall k | 0 <= k < |ts| ensures ParseInt(ts[k]) == Some(ids[k]) {
      ParseIntOfIntToString(ids[k]);
    }
    var r := ParseEach(ts);
    assert r.Some?;
    assert r.value == ids;
  }

  /** Writing ids as "1,2,3" and parsing the text gives the ids back. */
  lemma ParseCsvIdsRoundTrip(ids: seq<int>)
    requires |ids| > 0
    ensures ParseCsvIds(Some(Join(IdTexts(ids), ","))) == Some(ids)
  {
    var ts := IdTexts(ids);
    forall k | 0 <= k < |ts| ensures Avoids(ts[k], ',') {
      IdTextAvoidsComma(ids[k]);
    }
    SplitJoin(ts, ",");
    KeepNonBlankOfIds(ids);
    var s := Join(ts, ",");
    assert Pieces(s) == ts;
    ParseEachIds(ids);
  }

  /** A text made only of commas and whitespace parses to the empty list. */
  lemma {:induction false} BlankPiecesGiveEmpty(raw: seq<string>)
    requires forall i :: 0 <= i < |raw| ==> Strip(raw[i]) == ""
    ensures KeepNonBlank(raw) == [] && ParseEach(KeepNonBlank(raw)) == Some([])
  {
    if |raw| > 0 {
      BlankPiecesGiveEmpty(raw[1..]);
    }
  }

  // ----- validate_mandatory -----

  const DatesAndSearchTypeRequired := "from_date, to_date, and search_type are required"
  const DatesRequired := "from_date and to_date are required"
  const DateFormat := "from_date/to_date must be in YYYY-MM-DD format"

  /** The check used where search_type is mandatory: empty fields first,
      then two dates fromisoformat accepts. */
  function ValidateWithSearchType(fromDate: string, toDate: string, searchType: string): (r: Result<()>)
    ensures r.Ok? <==> searchType != "" && ParseIsoDate(fromDate).Some? && ParseIsoDate(toDate).Some?
    ensures r.Err? ==> r.failure.Http? && r.failure.status == 400
    ensures r.Err? ==> (r.failure.detail == DatesAndSearchTypeRequired <==>
                        (fromDate == "" || toDate == "" || searchType == ""))
  {
    if fromDate == "" || toDate == "" || searchType == "" then Err(BadRequest(DatesAndSearchTypeRequired))
    else if ParseIsoDate(fromDate).None? || ParseIsoDate(toDate).None? then Err(BadRequest(DateFormat))
    else Ok(())
  }

  /** The check used where only the dates are mandatory; `missing` is the
      detail the module reports for an empty date. */
  function ValidateDates(fromDate: string, toDate: string, missing: string): (r: Result<()>)
    requires missing != DateFormat
    ensures r.Ok? <==> ParseIsoDate(fromDate).Some? && ParseIsoDate(toDate).Some?
    ensures r.Err? ==> r.failure.Http? && r.failure.status == 400
    ensures r.Err? ==> (r.failure.detail == missing <==> (fromDate == "" || toDate == ""))
  {
    if fromDate == "" || toDate == "" then Err(BadRequest(missing))
    else if ParseIsoDate(fromDate).None? || ParseIsoDate(toDate).None? then Err(BadRequest(DateFormat))
    else Ok(())
  }
}
