/** Python string operations the helpers rely on: str.strip, str.split,
    str.join, str.lower (ASCII letters), `in` on substrings, int() and str()
    of an integer. */
module Text {
  import opened Wrappers

  predicate IsDigit(c: char) { '0' <= c <= '9' }

  predicate AllDigits(s: string) { forall i :: 0 <= i < |s| ==> IsDigit(s[i]) }

  function DigitValue(c: char): nat
    requires IsDigit(c)
  {
    (c as int) - ('0' as int)
  }

  function DigitChar(n: nat): (c: char)
    requires n < 10
    ensures IsDigit(c) && DigitValue(c) == n
  {
    ('0' as int + n) as char
  }

  /** str.isspace on the ASCII range: tab to carriage return, the four
      separator controls 0x1C-0x1F, and the space. */
  predicate IsSpace(c: char) { 9 <= c as int <= 13 || 28 <= c as int <= 32 }

  predicate NoSpace(s: string) { forall i :: 0 <= i < |s| ==> !IsSpace(s[i]) }

  function TrimLeft(s: string): (r: string)
    ensures |r| <= |s| && r == s[|s| - |r|..]
    ensures |r| == 0 || !IsSpace(r[0])
    ensures forall i :: 0 <= i < |s| - |r| ==> IsSpace(s[i])
  {
    if |s| > 0 && IsSpace(s[0]) then TrimLeft(s[1..]) else s
  }

  function TrimRight(s: string): (r: string)
    ensures |r| <= |s| && r == s[..|r|]
    ensures |r| == 0 || !IsSpace(r[|r| - 1])
    ensures forall i :: |r| <= i < |s| ==> IsSpace(s[i])
  {
    if |s| > 0 && IsSpace(s[|s| - 1]) then TrimRight(s[..|s| - 1]) else s
  }

  /** str.strip(): the longest slice with no leading or trailing whitespace,
      obtained by dropping whitespace only. */
  function Strip(s: string): (r: string)
    ensures |r| <= |s|
    ensures |r| == 0 || (!IsSpace(r[0]) && !IsSpace(r[|r| - 1]))
  {
    TrimRight(TrimLeft(s))
  }

  lemma StripWithoutSpace(s: string)
    requires NoSpace(s)
    ensures Strip(s) == s
  {
  }

  /** Text that neither starts nor ends with whitespace strips to itself. */
  lemma StripEnds(s: string)
    requires |s| > 0 && !IsSpace(s[0]) && !IsSpace(s[|s| - 1])
    ensures Strip(s) == s
  {
  }

  /** Every character is whitespace exactly when strip() leaves nothing. */
  lemma StripEmpty(s: string)
    ensures Strip(s) == [] <==> forall i :: 0 <= i < |s| ==> IsSpace(s[i])
  {
    var t := TrimLeft(s);
    var r := TrimRight(t);
    if r != [] {
      assert s[|s| - |t|] == t[0] == r[0];
    }
  }

  function LowerChar(c: char): char
  {
    if 'A' <= c <= 'Z' then (c as int + 32) as char else c
  }

  /** str.lower() restricted to ASCII letters. */
  function Lower(s: string): (r: string)
    ensures |r| == |s| && forall i :: 0 <= i < |s| ==> r[i] == LowerChar(s[i])
  {
    if |s| == 0 then [] else [LowerChar(s[0])] + Lower(s[1..])
  }

  lemma LowerAppend(a: string, b: string)
    ensures Lower(a + b) == Lower(a) + Lower(b)
  {
    assert Lower(a + b) == Lower(a) + Lower(b);
  }

  /** sep occurs in s starting at index j. */
  predicate OccursAt(s: string, sep: string, j: int)
  {
    0 <= j && j + |sep| <= |s| && s[j..j + |sep|] == sep
  }

  /** The first index at or after i where `sep` occurs in s. */
  function IndexFrom(s: string, sep: string, i: nat): (r: Option<nat>)
    requires |sep| > 0
    ensures r.Some? ==> i <= r.value && OccursAt(s, sep, r.value)
    ensures r.Some? ==> forall j :: i <= j < r.value ==> !OccursAt(s, sep, j)
    ensures r.None? ==> forall j :: i <= j ==> !OccursAt(s, sep, j)
    decreases |s| - i
  {
    if i + |sep| > |s| then None
    else if s[i..i + |sep|] == sep then Some(i)
    else IndexFrom(s, sep, i + 1)
  }

  /** Python's `sep in s` for a non-empty sep. */
  predicate Contains(s: string, sep: string)
    requires |sep| > 0
  {
    IndexFrom(s, sep, 0).Some?
  }

  lemma ContainsIff(s: string, sep: string)
    requires |sep| > 0
    ensures Contains(s, sep) <==> exists j :: OccursAt(s, sep, j)
  {
  }

  /** A string without the separator's first character cannot contain it. */
  lemma NotContains(s: string, sep: string)
    requires |sep| > 0 && forall i :: 0 <= i < |s| ==> s[i] != sep[0]
    ensures IndexFrom(s, sep, 0).None?
  {
    forall j | 0 <= j && j + |sep| <= |s| ensures !OccursAt(s, sep, j) {
      assert s[j..j + |sep|][0] == s[j];
    }
  }

  /** A text in which the separator's first character is never followed by
      its second cannot contain it. */
  lemma NotContainsPair(s: string, sep: string)
    requires |sep| >= 2 && forall j :: 0 <= j < |s| - 1 ==> !(s[j] == sep[0] && s[j + 1] == sep[1])
    ensures IndexFrom(s, sep, 0).None?
  {
    forall j | 0 <= j && j + |sep| <= |s| ensures !OccursAt(s, sep, j) {
      assert s[j..j + |sep|][0] == s[j] && s[j..j + |sep|][1] == s[j + 1];
    }
  }

  /** str.split(sep) for a non-empty sep: the pieces between the
      non-overlapping occurrences found from left to right. */
  function Split(s: string, sep: string): (parts: seq<string>)
    requires |sep| > 0
    ensures |parts| >= 1
    decreases |s|
  {
    match IndexFrom(s, sep, 0)
    case None => [s]
    case Some(i) => [s[..i]] + Split(s[i + |sep|..], sep)
  }

  /** The first occurrence of the separator splits off the text before it. */
  lemma SplitFirst(s: string, sep: string, i: nat)
    requires |sep| > 0 && OccursAt(s, sep, i) && forall j :: 0 <= j < i ==> !OccursAt(s, sep, j)
    ensures Split(s, sep) == [s[..i]] + Split(s[i + |sep|..], sep)
  {
    FirstOccurrence(s, sep, i);
  }

  /** The search finds the first occurrence. */
  lemma FirstOccurrence(s: string, sep: string, i: nat)
    requires |sep| > 0 && OccursAt(s, sep, i) && forall j :: 0 <= j < i ==> !OccursAt(s, sep, j)
    ensures IndexFrom(s, sep, 0) == Some(i)
  {
  }

  /** A text with a single occurrence of the separator, at i, splits
      into the text before it and the text after it. */
  lemma SplitOnce(s: string, sep: string, i: nat)
    requires |sep| > 0 && OccursAt(s, sep, i) && forall j :: 0 <= j < i ==> !OccursAt(s, sep, j)
    requires IndexFrom(s[i + |sep|..], sep, 0).None?
    ensures Split(s, sep) == [s[..i], s[i + |sep|..]]
  {
    SplitFirst(s, sep, i);
  }

  /** sep.join(parts). */
  function Join(parts: seq<string>, sep: string): string
  {
    if |parts| == 0 then ""
    else if |parts| == 1 then parts[0]
    else parts[0] + sep + Join(parts[1..], sep)
  }

  predicate Avoids(s: string, c: char) { forall i :: 0 <= i < |s| ==> s[i] != c }

  /** A text free of the separator's first character, then the separator:
      the first piece of the split is that text. */
  lemma SplitAfterPiece(a: string, sep: string, rest: string)
    requires |sep| > 0 && Avoids(a, sep[0])
    ensures Split(a + sep + rest, sep) == [a] + Split(rest, sep)
  {
    var s := a + sep + rest;
    assert s[|a|..|a| + |sep|] == sep;
    forall j | 0 <= j < |a| ensures !OccursAt(s, sep, j) {
      if j + |sep| <= |s| {
        assert s[j..j + |sep|][0] == a[j];
      }
    }
    SplitFirst(s, sep, |a|);
    assert s[..|a|] == a;
    assert s[|a| + |sep|..] == rest;
  }

  /** Splitting undoes joining when no piece holds the separator's first
      character. */
  lemma {:induction false} SplitJoin(parts: seq<string>, sep: string)
    requires |sep| > 0 && |parts| >= 1
    requires forall k :: 0 <= k < |parts| ==> Avoids(parts[k], sep[0])
    ensures Split(Join(parts, sep), sep) == parts
  {
    if |parts| == 1 {
      NotContains(parts[0], sep);
    } else {
      SplitAfterPiece(parts[0], sep, Join(parts[1..], sep));
      SplitJoin(parts[1..], sep);
      assert parts == [parts[0]] + parts[1..];
    }
  }

  lemma SplitTwo(a: string, sep: string, b: string)
    requires |sep| > 0 && Avoids(a, sep[0]) && Avoids(b, sep[0])
    ensures Split(a + sep + b, sep) == [a, b]
  {
    assert Join([a, b], sep) == a + sep + b;
    SplitJoin([a, b], sep);
  }

  /** Decimal value of a digit string, most significant digit first. */
  function DecValue(ds: string): nat
    requires AllDigits(ds)
  {
    if |ds| == 0 then 0 else DecValue(ds[..|ds| - 1]) * 10 + DigitValue(ds[|ds| - 1])
  }

  /** Python's int(s) on text: surrounding whitespace is ignored, one
      optional sign, then at least one ASCII digit. */
  function ParseInt(s: string): (r: Option<int>)
    ensures r.Some? ==> |Strip(s)| > 0
  {
    var t := Strip(s);
    if |t| > 1 && (t[0] == '+' || t[0] == '-') && AllDigits(t[1..]) then
      var v: int := DecValue(t[1..]);
      Some(if t[0] == '-' then -v else v)
    else if |t| > 0 && AllDigits(t) then Some(DecValue(t))
    else None
  }

  lemma ParseSigned(t: string)
    requires NoSpace(t) && |t| > 1 && t[0] == '-' && AllDigits(t[1..])
    ensures ParseInt(t) == Some(0 - DecValue(t[1..]))
  {
    StripWithoutSpace(t);
  }

  lemma ParseUnsigned(t: string)
    requires |t| > 0 && AllDigits(t)
    ensures ParseInt(t) == Some(DecValue(t))
  {
    assert NoSpace(t);
    StripWithoutSpace(t);
  }

  /** str() of a natural number: shortest decimal digits. */
  function NatToString(n: nat): (r: string)
    ensures |r| >= 1 && AllDigits(r)
    ensures |r| > 1 ==> r[0] != '0'
  {
    if n < 10 then [DigitChar(n)] else NatToString(n / 10) + [DigitChar(n % 10)]
  }

  /** str() of an integer. */
  function IntToString(i: int): (r: string)
    ensures |r| >= 1 && NoSpace(r)
  {
    if i < 0 then "-" + NatToString(-i) else NatToString(i)
  }

  lemma {:induction false} DecValueOfNatToString(n: nat)
    ensures DecValue(NatToString(n)) == n
  {
    if n >= 10 {
      var s := NatToString(n);
      assert s[..|s| - 1] == NatToString(n / 10);
      DecValueOfNatToString(n / 10);
    }
  }

  /** int(str(i)) == i. */
  lemma ParseIntOfIntToString(i: int)
    ensures ParseInt(IntToString(i)) == Some(i)
  {
    if i < 0 {
      ParseNegative(-i);
    } else {
      DecValueOfNatToString(i);
      ParseUnsigned(NatToString(i));
    }
  }

  lemma ParseNegative(n: nat)
    requires n > 0
    ensures ParseInt("-" + NatToString(n)) == Some(0 - n)
  {
    var ds := NatToString(n);
    var s := "-" + ds;
    DecValueOfNatToString(n);
    assert s[1..] == ds;
    assert NoSpace(s) by {
      assert IntToString(0 - n) == s;
    }
    ParseSigned(s);
  }

  lemma IntToStringInjective(i: int, j: int)
    requires IntToString(i) == IntToString(j)
    ensures i == j
  {
    ParseIntOfIntToString(i);
    ParseIntOfIntToString(j);
  }
}
