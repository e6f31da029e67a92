/** Worksheet names in the sales export: _safe_sheet_name
    (app/sales_report/utils/export_helper.py) and the `_sheet` closure of
    export_dynamic_report (sales_report/routes/export_xlsx.py), which keeps
    names unique without regard to case. */
module SheetNames {
  import opened Wrappers
  import opened Text

  const MaxSheetName := 31

  /** The characters a worksheet name may not hold: \ / * ? : [ ] */
  predicate Forbidden(c: char)
  {
    c == '\\' || c == '/' || c == '*' || c == '?' || c == ':' || c == '[' || c == ']'
  }

  predicate NoForbidden(s: string)
  {
    forall i :: 0 <= i < |s| ==> !Forbidden(s[i])
  }

  predicate AllSpace(s: string)
  {
    forall i :: 0 <= i < |s| ==> IsSpace(s[i])
  }

  predicate NoDoubleSpace(s: string)
  {
    forall i :: 0 <= i < |s| - 1 ==> !(IsSpace(s[i]) && IsSpace(s[i + 1]))
  }

  /** Every forbidden character replaced by an underscore. */
  function Sanitize(s: string): string
  {
    seq(|s|, i requires 0 <= i < |s| => if Forbidden(s[i]) then '_' else s[i])
  }

  /** re.sub(r'\s+', ' ', s): every run of whitespace becomes one blank. */
  function Collapse(s: string): string
    decreases |s|
  {
    if |s| == 0 then []
    else if IsSpace(s[0]) then
      var rest := TrimLeft(s);
      [' '] + Collapse(rest)
    else [s[0]] + Collapse(s[1..])
  }

  /** _safe_sheet_name: "Unknown" for None or "", otherwise the sanitised,
      collapsed, stripped name cut to 31 characters. */
  function SafeSheetName(name: Option<string>): (r: string)
    ensures |r| <= MaxSheetName
    ensures name.None? || name == Some("") ==> r == "Unknown"
  {
    match name
    case None => "Unknown"
    case Some(s) =>
      if s == "" then "Unknown" else CleanName(s)
  }

  function CleanName(s: string): (r: string)
    ensures |r| <= MaxSheetName
  {
    Cut(Strip(Collapse(Sanitize(s))))
  }

  /** safe[:31] */
  function Cut(t: string): (r: string)
    ensures |r| <= MaxSheetName && |r| <= |t| && r == t[..|r|]
    ensures |t| <= MaxSheetName ==> r == t
  {
    if |t| <= MaxSheetName then t else t[..MaxSheetName]
  }

  lemma {:induction false} CollapseProps(s: string)
    ensures |Collapse(s)| <= |s|
    ensures NoDoubleSpace(Collapse(s))
    ensures |Collapse(s)| > 0 && IsSpace(Collapse(s)[0]) ==> IsSpace(s[0])
    ensures forall i :: 0 <= i < |Collapse(s)| ==> Collapse(s)[i] == ' ' || Collapse(s)[i] in s
    ensures AllSpace(Collapse(s)) <==> AllSpace(s)
    decreases |s|
  {
    if |s| > 0 {
      if IsSpace(s[0]) {
        var rest := TrimLeft(s);
        CollapseProps(rest);
        CollapseSpaceStep(s, rest);
      } else {
        CollapseProps(s[1..]);
        CollapseCharStep(s);
      }
    }
  }

  /** A leading run of whitespace becomes one blank in front of the
      collapsed remainder. */
  lemma CollapseSpaceStep(s: string, rest: string)
    requires |s| > 0 && IsSpace(s[0]) && rest == TrimLeft(s)
    requires NoDoubleSpace(Collapse(rest))
    requires forall i :: 0 <= i < |Collapse(rest)| ==> Collapse(rest)[i] == ' ' || Collapse(rest)[i] in rest
    requires AllSpace(Collapse(rest)) <==> AllSpace(rest)
    requires |Collapse(rest)| <= |rest|
    requires |Collapse(rest)| > 0 && IsSpace(Collapse(rest)[0]) ==> IsSpace(rest[0])
    ensures |Collapse(s)| <= |s|
    ensures NoDoubleSpace(Collapse(s))
    ensures forall i :: 0 <= i < |Collapse(s)| ==> Collapse(s)[i] == ' ' || Collapse(s)[i] in s
    ensures AllSpace(Collapse(s)) <==> AllSpace(s)
  {
    var c := Collapse(s);
    var cr := Collapse(rest);
    assert c == [' '] + cr;
    CollapseSpaceMembers(s, rest, c, cr);
    BlankInFront(s, rest, c, cr);
  }

  /** One blank in front of a collapsed text that does not start with a
      blank: still no two blanks in a row, and all blank exactly when the
      whitespace run and what follows it are. */
  lemma BlankInFront(s: string, rest: string, c: string, cr: string)
    requires |s| > 0 && IsSpace(s[0])
    requires |rest| <= |s| && rest == s[|s| - |rest|..] && (|rest| == 0 || !IsSpace(rest[0]))
    requires forall i :: 0 <= i < |s| - |rest| ==> IsSpace(s[i])
    requires c == [' '] + cr && |cr| <= |rest|
    requires NoDoubleSpace(cr) && (|cr| > 0 && IsSpace(cr[0]) ==> IsSpace(rest[0]))
    requires AllSpace(cr) <==> AllSpace(rest)
    ensures |c| <= |s| && NoDoubleSpace(c)
    ensures AllSpace(c) <==> AllSpace(s)
  {
    forall i | 0 <= i < |c| - 1 ensures !(IsSpace(c[i]) && IsSpace(c[i + 1])) {
      if i > 0 {
        assert c[i] == cr[i - 1] && c[i + 1] == cr[i];
      }
    }
    if AllSpace(c) {
      forall i | 0 <= i < |cr| ensures IsSpace(cr[i]) {
        assert c[i + 1] == cr[i];
      }
      assert |rest| == 0;
    }
    if AllSpace(s) {
      assert |rest| == 0;
      assert c == [' '];
    }
  }

  lemma CollapseSpaceMembers(s: string, rest: string, c: string, cr: string)
    requires |rest| <= |s| && rest == s[|s| - |rest|..]
    requires c == [' '] + cr
    requires forall i :: 0 <= i < |cr| ==> cr[i] == ' ' || cr[i] in rest
    ensures forall i :: 0 <= i < |c| ==> c[i] == ' ' || c[i] in s
  {
    forall i | 0 <= i < |c| ensures c[i] == ' ' || c[i] in s {
      if i > 0 && c[i] in rest {
        var k :| 0 <= k < |rest| && rest[k] == c[i];
        assert s[|s| - |rest| + k] == c[i];
      }
    }
  }

  /** A leading non-blank character is kept in front of the collapsed rest. */
  lemma CollapseCharStep(s: string)
    requires |s| > 0 && !IsSpace(s[0])
    requires NoDoubleSpace(Collapse(s[1..]))
    requires |Collapse(s[1..])| <= |s| - 1
    requires forall i :: 0 <= i < |Collapse(s[1..])| ==> Collapse(s[1..])[i] == ' ' || Collapse(s[1..])[i] in s[1..]
    ensures |Collapse(s)| <= |s|
    ensures NoDoubleSpace(Collapse(s))
    ensures forall i :: 0 <= i < |Collapse(s)| ==> Collapse(s)[i] == ' ' || Collapse(s)[i] in s
    ensures !AllSpace(Collapse(s)) && !AllSpace(s)
  {
    var c := Collapse(s);
    assert c == [s[0]] + Collapse(s[1..]);
    forall i | 0 <= i < |c| ensures c[i] == ' ' || c[i] in s {
      if i > 0 && c[i] in s[1..] {
        var k :| 0 <= k < |s[1..]| && s[1..][k] == c[i];
        assert s[k + 1] == c[i];
      }
    }
    assert !IsSpace(c[0]);
  }

  lemma CollapseKeepsClean(s: string)
    requires NoForbidden(s)
    ensures NoForbidden(Collapse(s))
  {
    CollapseProps(s);
    var c := Collapse(s);
    forall i | 0 <= i < |c| ensures !Forbidden(c[i]) {
      if c[i] != ' ' {
        var k :| 0 <= k < |s| && s[k] == c[i];
      }
    }
  }

  /** Strip(c) is the slice of c from a. */
  lemma StripSlice(c: string) returns (a: nat)
    ensures a + |Strip(c)| <= |c| && Strip(c) == c[a..a + |Strip(c)|]
  {
    var tl := TrimLeft(c);
    a := |c| - |tl|;
  }

  /** What survives of a non-empty name: a prefix of a slice of the
      collapsed, sanitised name. */
  lemma SafeSheetNameSlice(s: string) returns (c: string, a: nat)
    requires s != ""
    ensures c == Collapse(Sanitize(s))
    ensures var r := SafeSheetName(Some(s));
            a + |r| <= |c| && forall i :: 0 <= i < |r| ==> r[i] == c[a + i]
    ensures SafeSheetName(Some(s)) == "" <==> Strip(c) == ""
    ensures SafeSheetName(Some(s)) == "" || !IsSpace(SafeSheetName(Some(s))[0])
  {
    c := Collapse(Sanitize(s));
    a := StripSlice(c);
    var st := Strip(c);
    var r := SafeSheetName(Some(s));
    assert r == Cut(st);
    forall i | 0 <= i < |r| ensures r[i] == c[a + i] {
      assert r[i] == st[i];
    }
  }

  /** The sheet name holds no forbidden character and no two blanks in a
      row, does not start with a blank, and is never longer than 31
      characters. */
  lemma SafeSheetNameClean(name: Option<string>)
    ensures |SafeSheetName(name)| <= MaxSheetName
    ensures NoForbidden(SafeSheetName(name))
    ensures NoDoubleSpace(SafeSheetName(name))
    ensures SafeSheetName(name) == "" || !IsSpace(SafeSheetName(name)[0])
  {
    if name.Some? && name.value != "" {
      var c, a := SafeSheetNameSlice(name.value);
      CollapsedClean(name.value);
      SliceClean(c, a, SafeSheetName(name));
    }
  }

  /** The sanitised, collapsed name has no forbidden character and no two
      blanks in a row. */
  lemma CollapsedClean(s: string)
    ensures NoForbidden(Collapse(Sanitize(s))) && NoDoubleSpace(Collapse(Sanitize(s)))
  {
    var t := Sanitize(s);
    CollapseProps(t);
    CollapseKeepsClean(t);
  }

  /** A run of consecutive characters of a text with no forbidden
      character and no two blanks in a row has neither. */
  lemma SliceClean(c: string, a: nat, r: string)
    requires NoForbidden(c) && NoDoubleSpace(c)
    requires a + |r| <= |c| && forall i :: 0 <= i < |r| ==> r[i] == c[a + i]
    ensures NoForbidden(r) && NoDoubleSpace(r)
  {
    forall i | 0 <= i < |r| - 1 ensures !(IsSpace(r[i]) && IsSpace(r[i + 1])) {
      assert r[i] == c[a + i] && r[i + 1] == c[a + i + 1];
    }
    forall i | 0 <= i < |r| ensures !Forbidden(r[i]) {
      assert r[i] == c[a + i];
    }
  }

  /** The sheet name is empty exactly for a non-empty, all-blank name. */
  lemma SafeSheetNameEmpty(name: Option<string>)
    ensures SafeSheetName(name) == "" <==> name.Some? && name.value != "" && AllSpace(name.value)
  {
    if name.Some? && name.value != "" {
      var c, a := SafeSheetNameSlice(name.value);
      CollapsedAllSpace(name.value);
      StripEmpty(c);
    }
  }

  /** Sanitising and collapsing keep a name all blank or not. */
  lemma CollapsedAllSpace(s: string)
    ensures AllSpace(Collapse(Sanitize(s))) <==> AllSpace(s)
  {
    var t := Sanitize(s);
    CollapseProps(t);
    assert AllSpace(t) <==> AllSpace(s) by {
      forall i | 0 <= i < |s| ensures IsSpace(t[i]) <==> IsSpace(s[i]) {
      }
    }
  }

  /** The name tried for the k-th clash: "base (k)". */
  function Candidate(base: string, k: nat): string
  {
    base + " (" + NatToString(k) + ")"
  }

  /** Two different clash numbers never give names that differ only in case. */
  lemma CandidateKeyInjective(base: string, j: nat, k: nat)
    requires Lower(Candidate(base, j)) == Lower(Candidate(base, k))
    ensures j == k
  {
    var nj := NatToString(j);
    var nk := NatToString(k);
    var lj := Lower(Candidate(base, j));
    var lk := Lower(Candidate(base, k));
    assert |nj| == |nk|;
    forall i | 0 <= i < |nj| ensures nj[i] == nk[i] {
      assert Candidate(base, j)[|base| + 2 + i] == nj[i];
      assert Candidate(base, k)[|base| + 2 + i] == nk[i];
      assert lj[|base| + 2 + i] == lk[|base| + 2 + i];
    }
    assert nj == nk;
    DecValueOfNatToString(j);
    DecValueOfNatToString(k);
  }

  /** A taken 31-character name gets a suffix after the cut, so the name
      `_sheet` returns for it is longer than 31 characters. */
  lemma CandidateExceedsLimit(base: string, k: nat)
    requires |base| == MaxSheetName
    ensures |Candidate(base, k)| > MaxSheetName
  {
  }

  /** A long name is cut to exactly 31 characters. */
  lemma LongNameFillsLimit()
    ensures |SafeSheetName(Some(seq(40, _ => 'a')))| == MaxSheetName
  {
    var s := seq(40, _ => 'a');
    assert Sanitize(s) == s;
    CollapseNoSpace(s);
    assert NoSpace(s);
    StripWithoutSpace(s);
  }

  lemma {:induction false} CollapseNoSpace(s: string)
    requires NoSpace(s)
    ensures Collapse(s) == s
  {
    if |s| > 0 {
      CollapseNoSpace(s[1..]);
    }
  }

  /** The names handed out so far, lower-cased; "summary" is taken first. */
  class SheetNamer {
    var used: set<string>

    constructor ()
      ensures used == {"summary"}
    {
      used := {"summary"};
    }

    /** _sheet: the safe name if its lower-case form is free, otherwise
        "name (k)" for the smallest k >= 2 that is free; the lower-case
        form of the result is recorded. */
    method Sheet(name: Option<string>) returns (safe: string)
      modifies this
      ensures Lower(safe) !in old(used)
      ensures used == old(used) + {Lower(safe)}
      ensures var base := SafeSheetName(name);
              (Lower(base) !in old(used) && safe == base) ||
              (Lower(base) in old(used) &&
               exists k :: 2 <= k && safe == Candidate(base, k) &&
                 forall j :: 2 <= j < k ==> ClashKey(base, j) in old(used))
    {
      safe := Claim(SafeSheetName(name));
    }

    /** The `while safe.lower() in used_names` loop for a given base name. */
    method Claim(base: string) returns (safe: string)
      modifies this
      ensures Lower(safe) !in old(used)
      ensures used == old(used) + {Lower(safe)}
      ensures (Lower(base) !in old(used) && safe == base) ||
              (Lower(base) in old(used) &&
               exists k :: 2 <= k && safe == Candidate(base, k) &&
                 forall j :: 2 <= j < k ==> ClashKey(base, j) in old(used))
    {
      safe := base;
      var i: nat := 2;
      ghost var tried: set<string> := {};
      while Lower(safe) in used
        invariant used == old(used)
        invariant i >= 2
        invariant safe == if i == 2 then base else Candidate(base, i - 1)
        invariant i > 2 ==> Lower(base) in used
        invariant Taken(base, i - 1, used)
        invariant tried <= used && |tried| == i - 2
        invariant i == 2 ==> tried == {}
        invariant Tried(base, i, tried)
        decreases |used| - |tried|
      {
        TriedStep(base, i, tried);
        if i > 2 {
          TakenStep(base, i - 1, used);
        }
        SubsetCard(tried + {Lower(safe)}, used);
        tried := tried + {Lower(safe)};
        safe := Candidate(base, i);
        i := i + 1;
      }
      if i > 2 {
        assert 2 <= i - 1 && safe == Candidate(base, i - 1) && Taken(base, i - 1, old(used));
      }
      used := used + {Lower(safe)};
    }
  }

  /** The lower-case key of the k-th clash name. */
  function ClashKey(base: string, k: nat): string
  {
    Lower(Candidate(base, k))
  }

  /** The clash names numbered 2 up to n - 1 are all taken. */
  ghost predicate Taken(base: string, n: int, used: set<string>)
  {
    forall j :: 2 <= j < n ==> ClashKey(base, j) in used
  }

  lemma TakenStep(base: string, n: nat, used: set<string>)
    requires Taken(base, n, used) && ClashKey(base, n) in used
    ensures Taken(base, n + 1, used)
  {
  }

  /** Every key tried before clash number i - 1. */
  ghost predicate Tried(base: string, i: nat, tried: set<string>)
  {
    forall x :: x in tried ==> x == Lower(base) || exists j :: 2 <= j < i - 1 && x == ClashKey(base, j)
  }

  lemma TriedStep(base: string, i: nat, tried: set<string>)
    requires i >= 2 && Tried(base, i, tried) && (i == 2 ==> tried == {})
    ensures var cur := if i == 2 then base else Candidate(base, i - 1);
            Lower(cur) !in tried && Tried(base, i + 1, tried + {Lower(cur)})
  {
    if i > 2 {
      var y := ClashKey(base, i - 1);
      forall x | x in tried ensures x != y {
        if x != Lower(base) {
          var j :| 2 <= j < i - 1 && x == ClashKey(base, j);
          if x == y {
            CandidateKeyInjective(base, j, i - 1);
          }
        }
      }
    }
  }

  lemma SubsetCard<T>(a: set<T>, b: set<T>)
    requires a <= b
    ensures |a| <= |b|
  {
    assert b == a + (b - a);
  }
}
