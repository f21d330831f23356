/** The normalisation `buildPrompt` applies to its template: line breaks
    followed by white space are collapsed, then both ends are trimmed. */
module TextNormalise {

  import opened JsString


  /** A line break immediately followed by white space at index `i`. */
  predicate NewlineSpaceAt(s: string, i: int) {
    0 <= i && i + 1 < |s| && s[i] == '\n' && IsSpace(s[i + 1])
  }

  predicate NoNewlineSpace(s: string) {
    forall i :: 0 <= i < |s| ==> !NewlineSpaceAt(s, i)
  }

  /** When `s` is not all white space, trimming the start of `s + t` stops
      inside `s`. */
  lemma TrimStartOfConcat(s: string, t: string)
    requires TrimStart(s) != []
    ensures TrimStart(s + t) == TrimStart(s) + t
  {
    var k := |s| - |TrimStart(s)|;
    assert (s + t)[k] == TrimStart(s)[0];
    LeadingSpacesUnique(s + t, k);
    assert (s + t)[k..] == s[k..] + t;
  }

  /** When `s` is all white space, trimming the start of `s + t` reaches
      into `t` and stops at its first character when that is not white
      space. */
  lemma TrimStartAcross(s: string, t: string)
    requires TrimStart(s) == []
    requires t == [] || !IsSpace(t[0])
    ensures TrimStart(s + t) == t
  {
    assert forall i :: 0 <= i < |s| ==> (s + t)[i] == s[i];
    LeadingSpacesUnique(s + t, |s|);
    assert (s + t)[|s|..] == t;
  }

  /** `s.replace(/\n\s+/g, '\n')`: every line break followed by a run of
      white space (line breaks included) becomes a single line break. A line
      break followed by no white space is kept as it is, and dropping no
      white space leaves the rest unchanged, so both cases read the same. */
  function CollapseNewlineSpace(s: string): (r: string)
    ensures |r| <= |s|
    ensures s != [] ==> r != [] && r[0] == s[0]
    decreases |s|
  {
    if s == [] then []
    else if s[0] == '\n' then "\n" + CollapseNewlineSpace(TrimStart(s[1..]))
    else [s[0]] + CollapseNewlineSpace(s[1..])
  }

  /** No line break followed by white space survives the collapsing. */
  lemma {:induction false} CollapseIsClean(s: string)
    ensures NoNewlineSpace(CollapseNewlineSpace(s))
    decreases |s|
  {
    if s != [] {
      var r := CollapseNewlineSpace(s);
      var rest := if s[0] == '\n' then TrimStart(s[1..]) else s[1..];
      var c := CollapseNewlineSpace(rest);
      CollapseIsClean(rest);
      assert r == [s[0]] + c;
      assert s[0] == '\n' ==> c == [] || !IsSpace(c[0]);
      forall i | 0 <= i < |r| ensures !NewlineSpaceAt(r, i) {
        if i > 0 {
          assert NewlineSpaceAt(r, i) ==> NewlineSpaceAt(c, i - 1);
        }
      }
    }
  }

  /** After a leading line break, the white space dropped never reaches a
      last character that is not white space. */
  lemma BreakRestKeepsLast(s: string)
    requires s != [] && s[0] == '\n' && !IsSpace(s[|s| - 1])
    ensures TrimStart(s[1..]) != []
    ensures TrimStart(s[1..])[|TrimStart(s[1..])| - 1] == s[|s| - 1]
  {
  }

  lemma LastOfConcat(p: string, t: string)
    requires t != []
    ensures (p + t)[|p + t| - 1] == t[|t| - 1]
  {
  }

  /** A last character that is not white space is kept last. */
  lemma {:induction false} CollapseKeepsLast(s: string)
    requires s != [] && !IsSpace(s[|s| - 1])
    ensures CollapseNewlineSpace(s) != []
    ensures CollapseNewlineSpace(s)[|CollapseNewlineSpace(s)| - 1] == s[|s| - 1]
    decreases |s|
  {
    if s[0] == '\n' {
      var rest := TrimStart(s[1..]);
      CollapseBreak(s);
      BreakRestKeepsLast(s);
      CollapseKeepsLast(rest);
      LastOfConcat("\n", CollapseNewlineSpace(rest));
    } else if |s| == 1 {
      CollapsePlain(s);
    } else {
      CollapsePlain(s);
      assert s[1..][|s| - 2] == s[|s| - 1];
      CollapseKeepsLast(s[1..]);
      LastOfConcat([s[0]], CollapseNewlineSpace(s[1..]));
    }
  }

  /** Text without a line break followed by white space is left as it is. */
  lemma {:induction false} CollapseKeepsClean(s: string)
    requires NoNewlineSpace(s)
    ensures CollapseNewlineSpace(s) == s
    decreases |s|
  {
    if s != [] {
      assert !NewlineSpaceAt(s, 0);
      assert NoNewlineSpace(s[1..]) by {
        forall i | 0 <= i < |s[1..]| ensures !NewlineSpaceAt(s[1..], i) {
          assert NewlineSpaceAt(s[1..], i) ==> NewlineSpaceAt(s, i + 1);
        }
      }
      CollapseKeepsClean(s[1..]);
      assert s == [s[0]] + s[1..];
    }
  }

  /** A text without line breaks is clean. */
  lemma NoLineBreakIsClean(s: string)
    requires '\n' !in s
    ensures NoNewlineSpace(s)
  {
  }

  // The steps below are kept apart from each other: each one unfolds the
  // collapsing once, and CollapseOfConcat only chains them.

  /** A first character other than a line break is copied. */
  lemma CollapsePlain(x: string)
    requires x != [] && x[0] != '\n'
    ensures CollapseNewlineSpace(x) == [x[0]] + CollapseNewlineSpace(x[1..])
  {
  }

  /** A leading line break is kept and the white space after it dropped. */
  lemma CollapseBreak(x: string)
    requires x != [] && x[0] == '\n'
    ensures CollapseNewlineSpace(x) == "\n" + CollapseNewlineSpace(TrimStart(x[1..]))
  {
  }

  lemma ConcatHead(x: string, y: string)
    requires x != []
    ensures (x + y)[0] == x[0] && (x + y)[1..] == x[1..] + y
  {
  }

  /** The step of CollapseOfConcat where `x` starts with any character
      other than a line break. */
  lemma ConcatStepPlain(x: string, y: string)
    requires x != [] && x[0] != '\n'
    requires CollapseNewlineSpace(x[1..] + y) == CollapseNewlineSpace(x[1..]) + CollapseNewlineSpace(y)
    ensures CollapseNewlineSpace(x + y) == CollapseNewlineSpace(x) + CollapseNewlineSpace(y)
  {
    ConcatHead(x, y);
    CollapsePlain(x + y);
    CollapsePlain(x);
    AppendAssoc([x[0]], CollapseNewlineSpace(x[1..]), CollapseNewlineSpace(y));
  }

  /** The step of CollapseOfConcat where `x` starts with a line break and
      holds something other than white space after it. */
  lemma ConcatStepRun(x: string, y: string)
    requires x != [] && x[0] == '\n' && TrimStart(x[1..]) != []
    requires var t := TrimStart(x[1..]);
      CollapseNewlineSpace(t + y) == CollapseNewlineSpace(t) + CollapseNewlineSpace(y)
    ensures CollapseNewlineSpace(x + y) == CollapseNewlineSpace(x) + CollapseNewlineSpace(y)
  {
    ConcatHead(x, y);
    CollapseBreak(x + y);
    TrimStartOfConcat(x[1..], y);
    CollapseBreak(x);
    AppendAssoc("\n", CollapseNewlineSpace(TrimStart(x[1..])), CollapseNewlineSpace(y));
  }

  /** The step of CollapseOfConcat where `x` is a line break and white space
      only, and `y` does not continue the run. */
  lemma ConcatStepRunToEnd(x: string, y: string)
    requires x != [] && x[0] == '\n' && TrimStart(x[1..]) == []
    requires y == [] || !IsSpace(y[0])
    ensures CollapseNewlineSpace(x + y) == CollapseNewlineSpace(x) + CollapseNewlineSpace(y)
  {
    ConcatHead(x, y);
    CollapseBreak(x + y);
    TrimStartAcross(x[1..], y);
    CollapseBreak(x);
    assert CollapseNewlineSpace(x) == "\n";
  }

  /** Collapsing works piecewise across a boundary that no white-space run
      crosses: the second part starts with a non-space character, or the
      first part ends with one. */
  lemma {:induction false} CollapseOfConcat(x: string, y: string)
    requires x == [] || y == [] || !IsSpace(y[0]) || !IsSpace(x[|x| - 1])
    ensures CollapseNewlineSpace(x + y) == CollapseNewlineSpace(x) + CollapseNewlineSpace(y)
    decreases |x|
  {
    if x == [] {
      assert x + y == y;
    } else if x[0] != '\n' {
      assert x[1..] == [] || x[1..][|x[1..]| - 1] == x[|x| - 1];
      CollapseOfConcat(x[1..], y);
      ConcatStepPlain(x, y);
    } else {
      var t := TrimStart(x[1..]);
      if t != [] {
        assert t[|t| - 1] == x[|x| - 1];
        CollapseOfConcat(t, y);
        ConcatStepRun(x, y);
      } else {
        assert IsSpace(x[|x| - 1]);
        ConcatStepRunToEnd(x, y);
      }
    }
  }

  /** A part of a text without line-break runs has none either. */
  lemma NoNewlineSpaceInfix(t: string, a: nat, b: nat)
    requires NoNewlineSpace(t) && a <= b <= |t|
    ensures NoNewlineSpace(t[a..b])
  {
    forall i | 0 <= i < b - a ensures !NewlineSpaceAt(t[a..b], i) {
      assert NewlineSpaceAt(t[a..b], i) ==> NewlineSpaceAt(t, a + i);
    }
  }

  /** Trimming keeps a text free of line-break runs. */
  lemma NoNewlineSpaceOfTrim(c: string)
    requires NoNewlineSpace(c)
    ensures NoNewlineSpace(Trim(c))
  {
    var u := TrimStart(c);
    assert u == c[|c| - |u|..|c|];
    NoNewlineSpaceInfix(c, |c| - |u|, |c|);
    var t := TrimEnd(u);
    assert t == u[0..|t|];
    NoNewlineSpaceInfix(u, 0, |t|);
  }

  /** The normalisation applied to the prompt template. */
  function Normalise(s: string): (r: string)
    ensures NoNewlineSpace(r)
    ensures Trimmed(r)
  {
    CollapseIsClean(s);
    NoNewlineSpaceOfTrim(CollapseNewlineSpace(s));
    Trim(CollapseNewlineSpace(s))
  }

  /** Collapsing splits around a part that starts and ends with a non-space
      character. */
  lemma CollapseAroundPart(x: string, m: string, y: string)
    requires m != [] && !IsSpace(m[0]) && !IsSpace(m[|m| - 1])
    ensures CollapseNewlineSpace(x + m + y)
            == CollapseNewlineSpace(x) + CollapseNewlineSpace(m) + CollapseNewlineSpace(y)
  {
    ConcatHead(m, y);
    CollapseOfConcat(m, y);
    CollapseOfConcat(x, m + y);
    AppendAssoc(x, m, y);
    AppendAssoc(CollapseNewlineSpace(x), CollapseNewlineSpace(m), CollapseNewlineSpace(y));
  }

  /** A part of the template that starts and ends with a non-space
      character comes through the normalisation collapsed but whole. */
  lemma NormaliseKeepsPart(x: string, m: string, y: string)
    requires m != [] && !IsSpace(m[0]) && !IsSpace(m[|m| - 1])
    ensures Contains(Normalise(x + m + y), CollapseNewlineSpace(m))
  {
    var cm := CollapseNewlineSpace(m);
    var cx, cy := CollapseNewlineSpace(x), CollapseNewlineSpace(y);
    CollapseKeepsLast(m);
    CollapseAroundPart(x, m, y);
    TrimKeepsInner(cx, cm, cy);
    var r := Normalise(x + m + y);
    var a := TrimStart(cx);
    assert r == a + cm + TrimEnd(cy);
    assert r[|a|..|a| + |cm|] == cm;
    ContainsAt(r, cm, |a|);
  }

  /** Two such parts both come through the normalisation. */
  lemma NormaliseKeepsTwoParts(a: string, m1: string, b: string, m2: string, c: string)
    requires m1 != [] && !IsSpace(m1[0]) && !IsSpace(m1[|m1| - 1])
    requires m2 != [] && !IsSpace(m2[0]) && !IsSpace(m2[|m2| - 1])
    ensures Contains(Normalise(a + m1 + b + m2 + c), CollapseNewlineSpace(m1))
    ensures Contains(Normalise(a + m1 + b + m2 + c), CollapseNewlineSpace(m2))
  {
    assert a + m1 + b + m2 + c == a + m1 + (b + m2 + c);
    NormaliseKeepsPart(a, m1, b + m2 + c);
    assert a + m1 + b + m2 + c == (a + m1 + b) + m2 + c;
    NormaliseKeepsPart(a + m1 + b, m2, c);
  }
}
