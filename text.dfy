/**
 * The JavaScript string operations the source relies on, restated over `seq<char>`:
 * trim, split on one character, join, includes, startsWith, endsWith, toLowerCase
 * (ASCII letters only), and the decimal conversions of `String(n)`, `Number(s)` and
 * `parseInt(s, 10)` for the inputs the source gives them.
 */
module Text {
  import opened Wrappers

  /** The characters that `String.prototype.trim` removes and that the regex class `\s` matches. */
  predicate IsWhitespace(c: char) {
    || c == ' ' || c == '\t' || c == '\n' || c == '\r' || c == '\U{B}' || c == '\U{C}'
    || c == '\U{A0}' || c == '\U{1680}' || ('\U{2000}' <= c <= '\U{200A}')
    || c == '\U{2028}' || c == '\U{2029}' || c == '\U{202F}' || c == '\U{205F}'
    || c == '\U{3000}' || c == '\U{FEFF}'
  }

  predicate IsDigit(c: char) {
    '0' <= c <= '9'
  }

  /** The regex class `\w`. */
  predicate IsWordChar(c: char) {
    IsDigit(c) || 'a' <= c <= 'z' || 'A' <= c <= 'Z' || c == '_'
  }

  predicate AllDigits(s: string) {
    forall i :: 0 <= i < |s| ==> IsDigit(s[i])
  }

  // ---------------------------------------------------------------- trimming

  function TrimStart(s: string): (r: string)
    ensures |r| <= |s|
    ensures r != [] ==> !IsWhitespace(r[0])
    ensures forall i :: 0 <= i < |s| - |r| ==> IsWhitespace(s[i])
  {
    if s != [] && IsWhitespace(s[0]) then TrimStart(s[1..]) else s
  }

  function TrimEnd(s: string): (r: string)
    ensures |r| <= |s|
    ensures r != [] ==> !IsWhitespace(r[|r| - 1])
  {
    if s != [] && IsWhitespace(s[|s| - 1]) then TrimEnd(s[..|s| - 1]) else s
  }

  /** What `TrimStart` keeps is a suffix of its input. */
  lemma {:induction false} TrimStartSuffix(s: string)
    ensures TrimStart(s) == s[|s| - |TrimStart(s)|..]
  {
    if s != [] && IsWhitespace(s[0]) {
      TrimStartSuffix(s[1..]);
    }
  }

  /** What `TrimEnd` drops is white space. */
  lemma {:induction false} TrimEndTail(s: string)
    ensures forall i :: |TrimEnd(s)| <= i < |s| ==> IsWhitespace(s[i])
  {
    if s != [] && IsWhitespace(s[|s| - 1]) {
      TrimEndTail(s[..|s| - 1]);
    }
  }

  /** What `TrimEnd` keeps is a prefix of its input. */
  lemma {:induction false} TrimEndPrefix(s: string)
    ensures TrimEnd(s) == s[..|TrimEnd(s)|]
  {
    if s != [] && IsWhitespace(s[|s| - 1]) {
      TrimEndPrefix(s[..|s| - 1]);
    }
  }

  /** Neither the first nor the last character is white space. */
  predicate IsTrimmed(s: string) {
    s == [] || (!IsWhitespace(s[0]) && !IsWhitespace(s[|s| - 1]))
  }

  /** `s.trim()`: the longest infix of `s` that starts and ends with a non-white-space character. */
  function Trim(s: string): (r: string)
    ensures IsTrimmed(r)
    ensures |r| <= |s|
  {
    var t := TrimStart(s);
    var r := TrimEnd(t);
    TrimEndPrefix(t);
    assert r != [] ==> r[0] == t[0];
    r
  }

  /** `(line) => line.trim()` used as a filter: the line is not blank. */
  function NotBlank(): string -> bool {
    (line: string) => Trim(line) != ""
  }

  /** The trimmed text is empty exactly when the text is all white space. */
  lemma TrimEmpty(s: string)
    ensures Trim(s) == [] <==> forall i :: 0 <= i < |s| ==> IsWhitespace(s[i])
  {
    var t := TrimStart(s);
    TrimStartSuffix(s);
    TrimEndPrefix(t);
    TrimEndTail(t);
  }

  lemma TrimOfTrimmed(s: string)
    requires IsTrimmed(s)
    ensures Trim(s) == s
  {
  }

  /** Leading white space in front of a string that does not start with white space is trimmed away. */
  lemma {:induction false} TrimStartPadded(a: string, y: string)
    requires forall i :: 0 <= i < |a| ==> IsWhitespace(a[i])
    requires y == [] || !IsWhitespace(y[0])
    ensures TrimStart(a + y) == y
    decreases |a|
  {
    if a != [] {
      assert (a + y)[1..] == a[1..] + y;
      TrimStartPadded(a[1..], y);
    }
  }

  lemma {:induction false} TrimEndPadded(y: string, b: string)
    requires forall i :: 0 <= i < |b| ==> IsWhitespace(b[i])
    requires y == [] || !IsWhitespace(y[|y| - 1])
    ensures TrimEnd(y + b) == y
    decreases |b|
  {
    if b != [] {
      assert (y + b)[..|y + b| - 1] == y + b[..|b| - 1];
      TrimEndPadded(y, b[..|b| - 1]);
    } else {
      assert y + b == y;
    }
  }

  /** Trimming removes exactly the white space around a trimmed string. */
  lemma TrimPadded(a: string, m: string, b: string)
    requires forall i :: 0 <= i < |a| ==> IsWhitespace(a[i])
    requires forall i :: 0 <= i < |b| ==> IsWhitespace(b[i])
    requires IsTrimmed(m)
    ensures Trim(a + m + b) == m
  {
    if m == [] {
      var ab := a + m + b;
      assert forall i :: 0 <= i < |ab| ==> IsWhitespace(ab[i]) by {
        assert ab == a + b;
      }
      TrimEmpty(ab);
    } else {
      assert a + m + b == a + (m + b);
      assert (m + b)[0] == m[0];
      TrimStartPadded(a, m + b);
      TrimEndPadded(m, b);
    }
  }

  /** Where the trimmed part of `s` sits: after `k` white-space characters and before only white space. */
  lemma TrimBounds(s: string) returns (k: nat)
    ensures k + |Trim(s)| <= |s| && Trim(s) == s[k..k + |Trim(s)|]
    ensures forall i :: 0 <= i < k ==> IsWhitespace(s[i])
    ensures forall i :: k + |Trim(s)| <= i < |s| ==> IsWhitespace(s[i])
  {
    var t := TrimStart(s);
    var r := Trim(s);
    k := |s| - |t|;
    TrimStartSuffix(s);
    TrimEndPrefix(t);
    TrimEndTail(t);
    assert r == TrimEnd(t) == t[..|r|];
    assert t == s[k..];
    assert r == s[k..k + |r|];
    forall i | k + |r| <= i < |s|
      ensures IsWhitespace(s[i])
    {
      assert s[i] == t[i - k];
    }
  }

  // ---------------------------------------------------------------- affixes and search

  /** `s.startsWith(p)`. */
  predicate StartsWith(s: string, p: string) {
    |p| <= |s| && s[..|p|] == p
  }

  /** `s.endsWith(p)`. */
  predicate EndsWith(s: string, p: string) {
    |p| <= |s| && s[|s| - |p|..] == p
  }

  /** `s.includes(sub)`: `sub` occurs in `s` at some position. */
  predicate Contains(s: string, sub: string)
    decreases |s|
  {
    StartsWith(s, sub) || (s != [] && Contains(s[1..], sub))
  }

  lemma {:induction false} ContainsAt(s: string, sub: string, k: nat)
    requires k + |sub| <= |s| && s[k..k + |sub|] == sub
    ensures Contains(s, sub)
    decreases k
  {
    if k > 0 {
      assert s[1..][k - 1..k - 1 + |sub|] == sub;
      ContainsAt(s[1..], sub, k - 1);
    }
  }

  lemma {:induction false} ContainsWitness(s: string, sub: string) returns (k: nat)
    requires Contains(s, sub)
    ensures k + |sub| <= |s| && s[k..k + |sub|] == sub
    decreases |s|
  {
    if StartsWith(s, sub) {
      k := 0;
    } else {
      var j := ContainsWitness(s[1..], sub);
      assert s[1..][j..j + |sub|] == s[j + 1..j + 1 + |sub|];
      k := j + 1;
    }
  }

  lemma ContainsInPrefix(a: string, b: string, sub: string)
    requires Contains(a, sub)
    ensures Contains(a + b, sub)
  {
    var k := ContainsWitness(a, sub);
    assert (a + b)[k..k + |sub|] == a[k..k + |sub|];
    ContainsAt(a + b, sub, k);
  }

  lemma StartsWithContains(s: string, p: string, sub: string)
    requires StartsWith(s, p) && Contains(p, sub)
    ensures Contains(s, sub)
  {
    assert s == p + s[|p|..];
    ContainsInPrefix(p, s[|p|..], sub);
  }

  /** A string shorter than `sub` cannot contain it. */
  lemma ContainsNeedsLength(s: string, sub: string)
    requires Contains(s, sub)
    ensures |sub| <= |s|
  {
    var k := ContainsWitness(s, sub);
  }

  /** Every character of a contained string occurs in the container. */
  lemma ContainsChars(s: string, sub: string, c: char)
    requires Contains(s, sub) && c in sub
    ensures c in s
  {
    var k := ContainsWitness(s, sub);
    var j :| 0 <= j < |sub| && sub[j] == c;
    assert s[k + j] == c;
  }

  // ---------------------------------------------------------------- case

  function LowerChar(c: char): char {
    if 'A' <= c <= 'Z' then (c as int + 32) as char else c
  }

  /** `s.toLowerCase()` on the ASCII letters. */
  function ToLower(s: string): (r: string)
    ensures |r| == |s|
    ensures forall i :: 0 <= i < |s| ==> r[i] == LowerChar(s[i])
  {
    seq(|s|, i requires 0 <= i < |s| => LowerChar(s[i]))
  }

  /** Lowering twice is lowering once. */
  lemma ToLowerIdempotent(s: string)
    ensures ToLower(ToLower(s)) == ToLower(s)
  {
  }

  // ---------------------------------------------------------------- split and join

  /** `s.split(sep)` for a one-character separator: the pieces between the separators, in order. */
  function Split(s: string, sep: char): (parts: seq<string>)
    ensures |parts| >= 1
  {
    if s == [] then [[]]
    else
      var rest := Split(s[1..], sep);
      if s[0] == sep then [[]] + rest else [[s[0]] + rest[0]] + rest[1..]
  }

  /** No piece of a split holds the separator. */
  lemma {:induction false} SplitPiecesFree(s: string, sep: char)
    ensures forall i :: 0 <= i < |Split(s, sep)| ==> sep !in Split(s, sep)[i]
  {
    if s != [] {
      SplitPiecesFree(s[1..], sep);
    }
  }

  /** `xs.join(sep)`. */
  function Join(xs: seq<string>, sep: string): string {
    if |xs| == 0 then []
    else if |xs| == 1 then xs[0]
    else xs[0] + sep + Join(xs[1..], sep)
  }

  lemma {:induction false} SplitWithout(s: string, sep: char)
    requires sep !in s
    ensures Split(s, sep) == [s]
  {
    if s != [] {
      SplitWithout(s[1..], sep);
      assert s == [s[0]] + s[1..];
    }
  }

  lemma {:induction false} SplitAfter(a: string, sep: char, rest: string)
    requires sep !in a
    ensures Split(a + [sep] + rest, sep) == [a] + Split(rest, sep)
  {
    if a == [] {
      assert a + [sep] + rest == [sep] + rest;
    } else {
      var whole := a + [sep] + rest;
      assert whole[0] == a[0] && whole[1..] == a[1..] + [sep] + rest;
      SplitAfter(a[1..], sep, rest);
      assert a == [a[0]] + a[1..];
    }
  }

  /** Splitting a join on a separator that occurs in no piece gives the pieces back. */
  lemma {:induction false} SplitJoin(xs: seq<string>, sep: char)
    requires |xs| >= 1
    requires forall i :: 0 <= i < |xs| ==> sep !in xs[i]
    ensures Split(Join(xs, [sep]), sep) == xs
  {
    if |xs| == 1 {
      SplitWithout(xs[0], sep);
    } else {
      SplitJoin(xs[1..], sep);
      SplitAfter(xs[0], sep, Join(xs[1..], [sep]));
    }
  }

  /** Joining the pieces of a split with the same separator gives the string back. */
  lemma {:induction false} JoinSplit(s: string, sep: char)
    ensures Join(Split(s, sep), [sep]) == s
  {
    if s != [] {
      JoinSplit(s[1..], sep);
      var rest := Split(s[1..], sep);
      if s[0] == sep {
        assert Split(s, sep)[1..] == rest;
      } else {
        var parts := Split(s, sep);
        assert parts[0] == [s[0]] + rest[0] && parts[1..] == rest[1..];
        if |rest| > 1 {
          assert Join(rest, [sep]) == rest[0] + [sep] + Join(rest[1..], [sep]);
        }
      }
    }
  }

  /** A separator-free prefix joins the first piece. */
  lemma {:induction false} SplitPrepend(a: string, x: string, sep: char)
    requires sep !in a
    ensures |Split(a + x, sep)| == |Split(x, sep)|
    ensures Split(a + x, sep) == [a + Split(x, sep)[0]] + Split(x, sep)[1..]
  {
    if a != [] {
      assert (a + x)[0] == a[0] && (a + x)[1..] == a[1..] + x;
      SplitPrepend(a[1..], x, sep);
      var p := Split(x, sep);
      assert [a[0]] + (a[1..] + p[0]) == a + p[0];
    } else {
      var p := Split(x, sep);
      assert a + x == x && a + p[0] == p[0] && [p[0]] + p[1..] == p;
    }
  }

  /** A separator-free suffix joins the last piece. */
  lemma {:induction false} SplitAppend(x: string, b: string, sep: char)
    requires sep !in b
    ensures |Split(x + b, sep)| == |Split(x, sep)|
    ensures var p := Split(x, sep);
      Split(x + b, sep) == p[..|p| - 1] + [p[|p| - 1] + b]
  {
    if x == [] {
      SplitWithout(b, sep);
      assert x + b == b;
      var p := Split(x, sep);
      assert p == [[]] && p[..0] + [p[0] + b] == [b];
    } else {
      SplitAppend(x[1..], b, sep);
      SplitAppendStep(x, b, sep);
    }
  }

  /** The step of `SplitAppend`: what holds for the tail holds with the first character put back. */
  lemma SplitAppendStep(x: string, b: string, sep: char)
    requires x != []
    requires var q := Split(x[1..], sep);
      Split(x[1..] + b, sep) == q[..|q| - 1] + [q[|q| - 1] + b]
    ensures var p := Split(x, sep);
      Split(x + b, sep) == p[..|p| - 1] + [p[|p| - 1] + b]
  {
    assert (x + b)[0] == x[0] && (x + b)[1..] == x[1..] + b;
    var q := Split(x[1..], sep);
    var r := Split(x[1..] + b, sep);
    if x[0] == sep {
      SplitAppendSeparator(q, r, b);
    } else {
      SplitAppendJoined(x[0], q, r, b);
    }
  }

  lemma SplitAppendSeparator(q: seq<string>, r: seq<string>, b: string)
    requires |q| >= 1 && r == q[..|q| - 1] + [q[|q| - 1] + b]
    ensures var p := [[]] + q; [[]] + r == p[..|p| - 1] + [p[|p| - 1] + b]
  {
  }

  lemma SplitAppendJoined(c: char, q: seq<string>, r: seq<string>, b: string)
    requires |q| >= 1 && r == q[..|q| - 1] + [q[|q| - 1] + b]
    ensures var p := [[c] + q[0]] + q[1..];
      [[c] + r[0]] + r[1..] == p[..|p| - 1] + [p[|p| - 1] + b]
  {
    var n := |q|;
    if n == 1 {
      assert [c] + (q[0] + b) == ([c] + q[0]) + b;
    } else {
      assert r[0] == q[0];
      assert r[1..] == q[1..n - 1] + [q[n - 1] + b];
    }
  }

  /** A join begins with its first piece and ends with its last. */
  lemma {:induction false} JoinEnds(xs: seq<string>, sep: string)
    requires |xs| >= 1 && forall i :: 0 <= i < |xs| ==> xs[i] != []
    ensures var j := Join(xs, sep);
      j != [] && j[0] == xs[0][0] && j[|j| - 1] == xs[|xs| - 1][|xs[|xs| - 1]| - 1]
  {
    if |xs| > 1 {
      var tail := xs[1..];
      JoinEnds(tail, sep);
      var rest := Join(tail, sep);
      var j := xs[0] + sep + rest;
      assert Join(xs, sep) == j;
      assert tail[|tail| - 1] == xs[|xs| - 1];
      assert j[0] == xs[0][0];
      assert j[|j| - 1] == rest[|rest| - 1];
    }
  }

  lemma {:induction false} JoinAppend(xs: seq<string>, x: string, sep: string)
    requires |xs| >= 1
    ensures Join(xs + [x], sep) == Join(xs, sep) + sep + x
  {
    if |xs| == 1 {
      assert (xs + [x])[1..] == [x];
    } else {
      assert (xs + [x])[1..] == xs[1..] + [x];
      JoinAppend(xs[1..], x, sep);
    }
  }

  // ---------------------------------------------------------------- numbers

  function DigitValue(c: char): nat
    requires IsDigit(c)
  {
    c as int - '0' as int
  }

  function DigitChar(d: nat): char
    requires d < 10
  {
    (d + '0' as int) as char
  }

  /** The value of a string of decimal digits. */
  function DigitsValue(s: string): nat
    requires AllDigits(s)
  {
    if s == [] then 0 else DigitsValue(s[..|s| - 1]) * 10 + DigitValue(s[|s| - 1])
  }

  /** `String(n)` for a non-negative integer: its canonical decimal numeral. */
  function NatToString(n: nat): (r: string)
    ensures r != [] && AllDigits(r)
    ensures |r| > 1 ==> r[0] != '0'
  {
    if n < 10 then [DigitChar(n)] else NatToString(n / 10) + [DigitChar(n % 10)]
  }

  lemma {:induction false} NatToStringValue(n: nat)
    ensures DigitsValue(NatToString(n)) == n
  {
    if n >= 10 {
      NatToStringValue(n / 10);
      var s := NatToString(n);
      assert s[..|s| - 1] == NatToString(n / 10);
    }
  }

  lemma {:induction false} NatToStringShort(n: nat)
    ensures n < 10 ==> |NatToString(n)| == 1
    ensures n < 100 ==> |NatToString(n)| <= 2
    ensures n < 1000 ==> |NatToString(n)| <= 3
  {
    if n >= 10 {
      NatToStringShort(n / 10);
    }
  }

  /** A canonical numeral (no leading zero) is the numeral of its value. */
  lemma {:induction false} CanonicalNumeral(s: string)
    requires s != [] && AllDigits(s) && (|s| > 1 ==> s[0] != '0')
    ensures NatToString(DigitsValue(s)) == s
    decreases |s|
  {
    var p := s[..|s| - 1];
    if |s| > 1 {
      assert p[0] == s[0];
      CanonicalNumeral(p);
      DigitsPositive(p);
      var v := DigitsValue(s);
      assert v / 10 == DigitsValue(p) && v % 10 == DigitValue(s[|s| - 1]);
      assert s == p + [s[|s| - 1]];
    }
  }

  lemma {:induction false} DigitsPositive(s: string)
    requires s != [] && AllDigits(s) && s[0] != '0'
    ensures DigitsValue(s) > 0
    decreases |s|
  {
    if |s| > 1 {
      DigitsPositive(s[..|s| - 1]);
    }
  }

  /** A numeral of at most three digits is below 1000. */
  lemma {:induction false} DigitsBound(s: string)
    requires AllDigits(s)
    ensures |s| <= 1 ==> DigitsValue(s) < 10
    ensures |s| <= 2 ==> DigitsValue(s) < 100
    ensures |s| <= 3 ==> DigitsValue(s) < 1000
  {
    if s != [] {
      DigitsBound(s[..|s| - 1]);
    }
  }

  /**
   * `Number(s)` for the strings the source converts: after trimming, the empty string
   * is 0 and a decimal numeral is its value; anything else is `NaN` (None).
   */
  function JsNumber(s: string): Option<nat> {
    var t := Trim(s);
    if AllDigits(t) then Some(DigitsValue(t)) else None
  }

  /** The leading digits of `s`. */
  function DigitPrefix(s: string): (r: string)
    ensures |r| <= |s| && AllDigits(r)
    ensures forall i :: 0 <= i < |r| ==> r[i] == s[i]
    ensures |r| < |s| ==> !IsDigit(s[|r|])
  {
    if s != [] && IsDigit(s[0]) then [s[0]] + DigitPrefix(s[1..]) else []
  }

  /**
   * `parseInt(s, 10)`: leading white space, an optional sign, then the leading digits;
   * `NaN` (None) when there are no digits.
   */
  function ParseInt(s: string): Option<int> {
    var t := TrimStart(s);
    var negative := t != [] && t[0] == '-';
    var body := if t != [] && (t[0] == '-' || t[0] == '+') then t[1..] else t;
    var digits := DigitPrefix(body);
    if digits == [] then None
    else if negative then Some(0 - DigitsValue(digits))
    else Some(DigitsValue(digits))
  }

  lemma {:induction false} DigitPrefixOfDigits(s: string)
    requires AllDigits(s)
    ensures DigitPrefix(s) == s
  {
    if s != [] {
      DigitPrefixOfDigits(s[1..]);
    }
  }

  lemma ParseIntOfNumeral(n: nat)
    ensures ParseInt(NatToString(n)) == Some(n)
  {
    var s := NatToString(n);
    assert TrimStart(s) == s;
    DigitPrefixOfDigits(s);
    NatToStringValue(n);
  }
}
