/** The JavaScript string and number built-ins the services rely on
    (String.prototype.trim, includes, indexOf, lastIndexOf, substring,
    Array.prototype.slice and join, Number-to-string and parseInt), stated
    over `seq<char>` with the semantics ECMAScript gives them. */
module JsString {

  import opened Values

  /** The WhiteSpace and LineTerminator code points: what `\s` matches and
      what `trim` removes. */
  predicate IsSpace(c: char) {
    || c == '\t' || c == '\n' || c == '\U{000B}' || c == '\U{000C}' || c == '\r'
    || c == ' ' || c == '\U{00A0}' || c == '\U{1680}' || ('\U{2000}' <= c <= '\U{200A}')
    || c == '\U{2028}' || c == '\U{2029}' || c == '\U{202F}' || c == '\U{205F}'
    || c == '\U{3000}' || c == '\U{FEFF}'
  }

  // ---------------------------------------------------------------- trim

  /** Number of white-space characters `s` starts with. */
  function LeadingSpaces(s: string): (n: nat)
    ensures n <= |s|
    ensures forall i :: 0 <= i < n ==> IsSpace(s[i])
    ensures n == |s| || !IsSpace(s[n])
  {
    if s != [] && IsSpace(s[0]) then 1 + LeadingSpaces(s[1..]) else 0
  }

  /** Number of white-space characters `s` ends with. */
  function TrailingSpaces(s: string): (n: nat)
    ensures n <= |s|
    ensures forall i :: |s| - n <= i < |s| ==> IsSpace(s[i])
    ensures n == |s| || !IsSpace(s[|s| - n - 1])
  {
    if s != [] && IsSpace(s[|s| - 1]) then 1 + TrailingSpaces(s[..|s| - 1]) else 0
  }

  function TrimStart(s: string): (r: string)
    ensures |r| <= |s| && r == s[|s| - |r|..]
    ensures r == [] || !IsSpace(r[0])
    ensures forall i :: 0 <= i < |s| - |r| ==> IsSpace(s[i])
  {
    s[LeadingSpaces(s)..]
  }

  function TrimEnd(s: string): (r: string)
    ensures |r| <= |s| && r == s[..|r|]
    ensures r == [] || !IsSpace(r[|r| - 1])
    ensures forall i :: |r| <= i < |s| ==> IsSpace(s[i])
  {
    s[..|s| - TrailingSpaces(s)]
  }

  /** Neither the first nor the last character is white space. */
  predicate Trimmed(r: string) {
    r == [] || (!IsSpace(r[0]) && !IsSpace(r[|r| - 1]))
  }

  /** `s.trim()`: the longest infix of `s` that neither starts nor ends with
      white space, obtained by removing white space only. */
  function Trim(s: string): (r: string)
    ensures Trimmed(r)
    ensures |r| <= |s|
  {
    TrimEnd(TrimStart(s))
  }

  /** The three properties of LeadingSpaces determine it. */
  lemma {:induction false} LeadingSpacesUnique(s: string, k: nat)
    requires k <= |s|
    requires forall i :: 0 <= i < k ==> IsSpace(s[i])
    requires k == |s| || !IsSpace(s[k])
    ensures LeadingSpaces(s) == k
  {
    if k > 0 {
      LeadingSpacesUnique(s[1..], k - 1);
    }
  }

  /** The three properties of TrailingSpaces determine it. */
  lemma {:induction false} TrailingSpacesUnique(s: string, k: nat)
    requires k <= |s|
    requires forall i :: |s| - k <= i < |s| ==> IsSpace(s[i])
    requires k == |s| || !IsSpace(s[|s| - k - 1])
    ensures TrailingSpaces(s) == k
  {
    if k > 0 {
      TrailingSpacesUnique(s[..|s| - 1], k - 1);
    }
  }

  lemma TrimStartOfConcat(x: string, y: string)
    requires y != [] && !IsSpace(y[0])
    ensures TrimStart(x + y) == TrimStart(x) + y
  {
    var m := LeadingSpaces(x);
    var s := x + y;
    assert s[m] == if m < |x| then x[m] else y[0];
    LeadingSpacesUnique(s, m);
    assert s[m..] == x[m..] + y;
  }

  /** When `x` is not all white space, trimming `x + y` stops inside `x`. */
  lemma TrimStartOfConcatInside(x: string, y: string)
    requires TrimStart(x) != []
    ensures TrimStart(x + y) == TrimStart(x) + y
  {
    var m := LeadingSpaces(x);
    var s := x + y;
    assert s[m] == x[m];
    LeadingSpacesUnique(s, m);
    assert s[m..] == x[m..] + y;
  }

  lemma TrimEndOfConcat(x: string, y: string)
    requires x != [] && !IsSpace(x[|x| - 1])
    ensures TrimEnd(x + y) == x + TrimEnd(y)
  {
    var m := TrailingSpaces(y);
    var s := x + y;
    assert s[|s| - m - 1] == if m < |y| then y[|y| - m - 1] else x[|x| - 1];
    TrailingSpacesUnique(s, m);
    assert s[..|s| - m] == x + y[..|y| - m];
  }

  /** Trimming never reaches into a part that starts and ends with a
      non-space character. */
  lemma TrimKeepsInner(x: string, y: string, z: string)
    requires y != [] && !IsSpace(y[0]) && !IsSpace(y[|y| - 1])
    ensures Trim(x + y + z) == TrimStart(x) + y + TrimEnd(z)
  {
    assert x + y + z == x + (y + z);
    TrimStartOfConcat(x, y + z);
    var a := TrimStart(x) + y;
    assert TrimStart(x) + (y + z) == a + z;
    TrimEndOfConcat(a, z);
  }

  // ---------------------------------------------------------------- search

  predicate StartsWith(s: string, prefix: string) {
    |prefix| <= |s| && s[..|prefix|] == prefix
  }

  /** `s.includes(sub)`. */
  predicate Contains(s: string, sub: string)
    decreases |s|
  {
    StartsWith(s, sub) || (s != [] && Contains(s[1..], sub))
  }

  /** `includes` with a one-character argument is membership. */
  lemma {:induction false} ContainsChar(s: string, c: char)
    ensures Contains(s, [c]) <==> c in s
  {
    if s != [] {
      ContainsChar(s[1..], c);
      assert s == [s[0]] + s[1..];
    }
  }

  /** An occurrence at index `i` is found by `includes`. */
  lemma {:induction false} ContainsAt(s: string, sub: string, i: nat)
    requires i + |sub| <= |s| && s[i..i + |sub|] == sub
    ensures Contains(s, sub)
  {
    if i > 0 {
      assert s[1..][i - 1..i - 1 + |sub|] == s[i..i + |sub|];
      ContainsAt(s[1..], sub, i - 1);
    }
  }

  /** A text contains each of its middle parts. */
  lemma ContainsMiddle(a: string, m: string, b: string)
    ensures Contains(a + m + b, m)
  {
    assert (a + m + b)[|a|..|a| + |m|] == m;
    ContainsAt(a + m + b, m, |a|);
  }

  /** A text contains both of two middle parts. */
  lemma ContainsMiddles(a: string, m1: string, b: string, m2: string, c: string)
    ensures Contains(a + m1 + b + m2 + c, m1)
    ensures Contains(a + m1 + b + m2 + c, m2)
  {
    assert a + m1 + b + m2 + c == a + m1 + (b + m2 + c);
    ContainsMiddle(a, m1, b + m2 + c);
    ContainsMiddle(a + m1 + b, m2, c);
  }

  /** A text lacking a character of `sub` does not include `sub`. */
  lemma {:induction false} NotContainsWithoutChar(s: string, sub: string, c: char)
    requires c in sub && c !in s
    ensures !Contains(s, sub)
    decreases |s|
  {
    if s != [] {
      NotContainsWithoutChar(s[1..], sub, c);
    }
  }

  /** `s.indexOf(c)`: -1 when `c` does not occur, else its first position. */
  function IndexOf(s: string, c: char): (r: int)
    ensures r == -1 <==> c !in s
    ensures r != -1 ==> 0 <= r < |s| && s[r] == c && c !in s[..r]
  {
    if s == [] then -1
    else if s[0] == c then 0
    else
      var k := IndexOf(s[1..], c);
      assert s[1..] == s[1..][..];
      if k == -1 then -1
      else
        assert s[..k + 1] == [s[0]] + s[1..][..k];
        k + 1
  }

  /** `s.lastIndexOf(c)`: -1 when `c` does not occur, else its last position. */
  function LastIndexOf(s: string, c: char): (r: int)
    ensures r == -1 <==> c !in s
    ensures r != -1 ==> 0 <= r < |s| && s[r] == c && c !in s[r + 1..]
  {
    if s == [] then -1
    else if s[|s| - 1] == c then |s| - 1
    else
      var k := LastIndexOf(s[..|s| - 1], c);
      assert s == s[..|s| - 1] + [s[|s| - 1]];
      if k == -1 then -1
      else
        assert s[k + 1..] == s[..|s| - 1][k + 1..] + [s[|s| - 1]];
        k
  }

  /** `s.substring(a, b)`: both ends are clamped to the length and swapped
      when `a` exceeds `b`. */
  function Substring(s: string, a: nat, b: nat): (r: string)
    ensures a <= b <= |s| ==> r == s[a..b]
    ensures b < a <= |s| ==> r == s[b..a]
  {
    var lo := if a <= |s| then a else |s|;
    var hi := if b <= |s| then b else |s|;
    if lo <= hi then s[lo..hi] else s[hi..lo]
  }

  /** `s.replace(/c/g, '')`. */
  function RemoveAll(s: string, c: char): (r: string)
    ensures c !in r
    ensures forall d :: d != c ==> (d in r <==> d in s)
    ensures |r| <= |s|
  {
    if s == [] then []
    else if s[0] == c then RemoveAll(s[1..], c)
    else [s[0]] + RemoveAll(s[1..], c)
  }

  /** Concatenation regroups. */
  lemma AppendAssoc(p: string, a: string, b: string)
    ensures p + (a + b) == (p + a) + b
  {
  }

  /** Removal works piece by piece: the kept characters stay in order and
      each occurrence is kept or dropped on its own. */
  lemma {:induction false} RemoveAllOfConcat(x: string, y: string, c: char)
    ensures RemoveAll(x + y, c) == RemoveAll(x, c) + RemoveAll(y, c)
    decreases |x|
  {
    if x == [] {
      assert x + y == y;
    } else {
      assert (x + y)[0] == x[0] && (x + y)[1..] == x[1..] + y;
      RemoveAllOfConcat(x[1..], y, c);
    }
  }

  /** A text without the character is left as it is. */
  lemma {:induction false} RemoveAllAbsent(s: string, c: char)
    requires c !in s
    ensures RemoveAll(s, c) == s
    decreases |s|
  {
    if s != [] {
      assert c !in s[1..];
      RemoveAllAbsent(s[1..], c);
      assert s == [s[0]] + s[1..];
    }
  }

  // ---------------------------------------------------------------- arrays

  /** `xs.slice(-n)` for a positive `n`: the last `n` elements, or all of
      them when there are fewer. */
  function SliceLast<T>(xs: seq<T>, n: nat): (r: seq<T>)
    requires n > 0
    ensures |r| == if |xs| < n then |xs| else n
    ensures r == xs[|xs| - |r|..]
  {
    if |xs| <= n then xs else xs[|xs| - n..]
  }

  /** `xs.join(sep)`. */
  function Join(xs: seq<string>, sep: string): string {
    if xs == [] then ""
    else if |xs| == 1 then xs[0]
    else xs[0] + sep + Join(xs[1..], sep)
  }

  /** Appending an element to a non-empty list extends its join by the
      separator and that element. */
  lemma {:induction false} JoinSnoc(xs: seq<string>, x: string, sep: string)
    requires xs != []
    ensures Join(xs + [x], sep) == Join(xs, sep) + sep + x
  {
    if |xs| > 1 {
      assert (xs + [x])[1..] == xs[1..] + [x];
      JoinSnoc(xs[1..], x, sep);
    } else {
      assert (xs + [x])[1..] == [x];
    }
  }

  /** The join is made of its elements and separators only: its length is
      the elements' lengths plus one separator between each two. */
  function TotalLength(xs: seq<string>): nat {
    if xs == [] then 0 else |xs[0]| + TotalLength(xs[1..])
  }

  lemma {:induction false} JoinLength(xs: seq<string>, sep: string)
    requires xs != []
    ensures |Join(xs, sep)| == TotalLength(xs) + (|xs| - 1) * |sep|
  {
    if |xs| > 1 {
      JoinLength(xs[1..], sep);
    }
  }

  // ---------------------------------------------------------------- numbers

  predicate IsDigit(c: char) { '0' <= c <= '9' }

  predicate IsHexDigit(c: char) { IsDigit(c) || 'a' <= c <= 'f' || 'A' <= c <= 'F' }

  predicate AllDigits(s: string) { forall i :: 0 <= i < |s| ==> IsDigit(s[i]) }

  function DigitValue(c: char): (v: nat)
    requires IsHexDigit(c)
    ensures v < 16
    ensures IsDigit(c) ==> v < 10
  {
    if IsDigit(c) then (c - '0') as nat
    else if 'a' <= c <= 'f' then (c - 'a') as nat + 10
    else (c - 'A') as nat + 10
  }

  predicate IsRadixDigit(c: char, radix: nat) {
    if radix == 16 then IsHexDigit(c) else IsDigit(c)
  }

  /** Value of a string of digits in base `radix`, most significant first. */
  function RadixValue(d: string, radix: nat): nat
    requires radix == 10 || radix == 16
    requires forall i :: 0 <= i < |d| ==> IsRadixDigit(d[i], radix)
  {
    if d == [] then 0
    else
      assert IsRadixDigit(d[|d| - 1], radix);
      RadixValue(d[..|d| - 1], radix) * radix + DigitValue(d[|d| - 1])
  }

  /** Length of the longest prefix of `s` made of digits of base `radix`. */
  function DigitPrefix(s: string, radix: nat): (n: nat)
    ensures n <= |s|
    ensures forall i :: 0 <= i < n ==> IsRadixDigit(s[i], radix)
    ensures n == |s| || !IsRadixDigit(s[n], radix)
  {
    if s != [] && IsRadixDigit(s[0], radix) then 1 + DigitPrefix(s[1..], radix) else 0
  }

  lemma {:induction false} DigitPrefixOfDigits(s: string, radix: nat)
    requires forall i :: 0 <= i < |s| ==> IsRadixDigit(s[i], radix)
    ensures DigitPrefix(s, radix) == |s|
  {
    if s != [] {
      DigitPrefixOfDigits(s[1..], radix);
    }
  }

  function DigitChar(d: nat): (c: char)
    requires d < 10
    ensures IsDigit(c) && DigitValue(c) == d
  {
    (d as int + '0' as int) as char
  }

  /** Decimal representation of a natural number, without leading zeros. */
  function NatToString(n: nat): (s: string)
    ensures s != [] && AllDigits(s)
    ensures RadixValue(s, 10) == n
    ensures |s| > 1 ==> s[0] != '0'
  {
    if n < 10 then [DigitChar(n)]
    else
      var s := NatToString(n / 10) + [DigitChar(n % 10)];
      assert s[..|s| - 1] == NatToString(n / 10);
      s
  }

  /** How a JavaScript integer-valued Number is written by `${n}`. */
  function IntToString(n: int): (s: string)
    ensures s != []
    ensures n >= 0 ==> AllDigits(s) && RadixValue(s, 10) == n
    ensures n < 0 ==> s[0] == '-' && AllDigits(s[1..]) && RadixValue(s[1..], 10) == -n
  {
    if n < 0 then "-" + NatToString(-n) else NatToString(n)
  }

  /** `parseInt(s)` with no radix: skip leading white space, read an optional
      sign, read base 16 after a `0x`/`0X` prefix and base 10 otherwise, and
      take the longest run of digits; `None` is NaN. A negative zero is 0. */
  function ParseInt(s: string): (r: Option<int>) {
    var t := TrimStart(s);
    var negative := t != [] && t[0] == '-';
    var u := if t != [] && (t[0] == '-' || t[0] == '+') then t[1..] else t;
    var hex := |u| >= 2 && u[0] == '0' && (u[1] == 'x' || u[1] == 'X');
    var radix := if hex then 16 else 10;
    var body := if hex then u[2..] else u;
    var n := DigitPrefix(body, radix);
    if n == 0 then None
    else
      assert forall i :: 0 <= i < n ==> body[..n][i] == body[i];
      var v := RadixValue(body[..n], radix);
      Some(if negative then -(v as int) else v as int)
  }

  /** A run of decimal digits reads back as its decimal value. */
  lemma ParseIntOfDigits(d: string)
    requires d != [] && AllDigits(d)
    ensures ParseInt(d) == Some(RadixValue(d, 10))
  {
    assert LeadingSpaces(d) == 0 by { assert !IsSpace(d[0]); }
    assert TrimStart(d) == d;
    if |d| >= 2 {
      assert !(d[1] == 'x' || d[1] == 'X') by { assert IsDigit(d[1]); }
    }
    DigitPrefixOfDigits(d, 10);
    assert d[..|d|] == d;
  }

  /** Printing an integer and parsing it back gives the integer. */
  lemma ParseIntOfIntToString(n: int)
    ensures ParseInt(IntToString(n)) == Some(n)
  {
    var s := IntToString(n);
    if n >= 0 {
      ParseIntOfDigits(s);
    } else {
      var d := s[1..];
      assert LeadingSpaces(s) == 0 by { assert s[0] == '-'; }
      assert TrimStart(s) == s;
      if |d| >= 2 {
        assert !(d[1] == 'x' || d[1] == 'X') by { assert IsDigit(d[1]); }
      }
      DigitPrefixOfDigits(d, 10);
      assert d[..|d|] == d;
    }
  }

  // ---------------------------------------------------------------- random choice

  /** `Math.floor(r * n)` for a draw `r` of Math.random: a valid index. */
  function Pick(r: real, n: nat): (i: nat)
    requires 0.0 <= r < 1.0 && n > 0
    ensures i < n
  {
    assert r * n as real < 1.0 * n as real;
    (r * n as real).Floor
  }

  /** Every index of a list of `n` entries is drawn by some value of
      Math.random. */
  lemma PickReachesEveryIndex(n: nat, i: nat)
    requires i < n
    ensures exists r :: 0.0 <= r < 1.0 && Pick(r, n) == i
  {
    var r := i as real / n as real;
    assert r * n as real == i as real;
    assert Pick(r, n) == i;
  }

  // ---------------------------------------------------------------- template literals

  /** `${s}` for a string-valued field: an unset one prints as "undefined". */
  function ShowStr(s: Option<string>): string {
    if s.Some? then s.value else "undefined"
  }

  /** `${n}` for a number-valued field: an unset one prints as "undefined". */
  function ShowNum(n: Option<int>): string {
    if n.Some? then IntToString(n.value) else "undefined"
  }

  /** `${s || d}` for a string-valued field and a string default. */
  function StrOr(s: Option<string>, d: string): (r: string)
    ensures TruthyStr(s) ==> r == s.value
    ensures !TruthyStr(s) ==> r == d
  {
    if TruthyStr(s) then s.value else d
  }

  /** `${n || d}` for a number-valued field and a string default. */
  function NumOr(n: Option<int>, d: string): (r: string)
    ensures TruthyNum(n) ==> r == IntToString(n.value)
    ensures !TruthyNum(n) ==> r == d
  {
    if TruthyNum(n) then IntToString(n.value) else d
  }
}
