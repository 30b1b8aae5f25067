/**
 * The regular expressions the platform backends match tool output against, restated as
 * functions. A dotted address pattern such as `\d+\.\d+\.\d+\.\d+` is matched greedily from
 * the left: a digit group can only be followed by a dot where its run of digits ends, so the
 * match never needs to backtrack into a group, and the functions below follow that directly.
 */
module Patterns {
  import opened Wrappers
  import opened Text

  /** How many digits one group of a dotted pattern takes: `\d+` or `\d{1,3}`. */
  datatype Width = AnyWidth | UpToThree

  predicate IsAddressChar(c: char) {
    IsDigit(c) || c == '.'
  }

  /**
   * `n` digit groups separated by dots, matched at the start of `s`: the text matched. A
   * group before a dot must be the whole run of digits there (with `\d{1,3}`, at most three of
   * them); the last group takes as many digits as the width allows.
   */
  function Groups(s: string, n: nat, width: Width): (r: Option<string>)
    requires n >= 1
    ensures r.Some? ==> r.value != [] && forall i :: 0 <= i < |r.value| ==> IsAddressChar(r.value[i])
    decreases n
  {
    var d := DigitPrefix(s);
    if d == [] then None
    else if n == 1 then Some(if width.UpToThree? && |d| > 3 then d[..3] else d)
    else if (width.AnyWidth? || |d| <= 3) && |d| < |s| && s[|d|] == '.' then
      match Groups(s[|d| + 1..], n - 1, width)
      case Some(rest) => Some(d + "." + rest)
      case None => None
    else None
  }

  /** `\d+\.\d+\.\d+\.\d+` at the start of `s`. */
  function Quad(s: string): Option<string> {
    Groups(s, 4, AnyWidth)
  }

  /** `\d{1,3}\.\d{1,3}\.\d{1,3}\.\d{1,3}` at the start of `s`. */
  function ShortQuad(s: string): Option<string> {
    Groups(s, 4, UpToThree)
  }

  /** `/^\d+\.\d+\.\d+\.\d+$/.test(s)`: the whole string is a digit dotted quad. */
  predicate IsQuadLine(s: string) {
    Quad(s) == Some(s)
  }

  /** The dotted form of four groups. */
  function Dotted(a: string, b: string, c: string, d: string): string {
    a + "." + (b + "." + (c + "." + d))
  }

  /**
   * `s.match(pattern)` for a pattern without `^`: the match at the first position where the
   * pattern, tried there by `at`, matches.
   */
  function Search(s: string, at: string -> Option<string>): (r: Option<string>)
    decreases |s|
  {
    match at(s)
    case Some(m) => Some(m)
    case None => if s == [] then None else Search(s[1..], at)
  }

  /** The first dotted quad anywhere in `s`, `\d+` groups. */
  function FindQuad(s: string): Option<string> {
    Search(s, Quad)
  }

  /** The first dotted quad anywhere in `s`, `\d{1,3}` groups. */
  function FindShortQuad(s: string): Option<string> {
    Search(s, ShortQuad)
  }

  /** The leading `\w` characters of `s`. */
  function WordPrefix(s: string): (r: string)
    ensures |r| <= |s| && forall i :: 0 <= i < |r| ==> r[i] == s[i] && IsWordChar(r[i])
    ensures |r| < |s| ==> !IsWordChar(s[|r|])
  {
    if s != [] && IsWordChar(s[0]) then [s[0]] + WordPrefix(s[1..]) else []
  }

  /** `s.split(/\s{2,}/)`: the pieces between runs of two or more white-space characters. */
  function SplitWide(s: string): (parts: seq<string>)
    ensures |parts| >= 1
    decreases |s|
  {
    if s == [] then [[]]
    else if |s| >= 2 && IsWhitespace(s[0]) && IsWhitespace(s[1]) then [[]] + SplitWide(TrimStart(s[2..]))
    else
      var rest := SplitWide(s[1..]);
      [[s[0]] + rest[0]] + rest[1..]
  }

  /** No two white-space characters in a row. */
  predicate NoDoubleSpace(s: string) {
    forall i :: 0 <= i < |s| - 1 ==> !(IsWhitespace(s[i]) && IsWhitespace(s[i + 1]))
  }

  /** A table cell: not empty, not padded, and without a run of white space inside. */
  predicate IsCell(s: string) {
    s != [] && !IsWhitespace(s[0]) && !IsWhitespace(s[|s| - 1]) && NoDoubleSpace(s)
  }

  // ---------------------------------------------------------------- facts about the matchers

  /** The search finds the match at the first position where there is one. */
  lemma {:induction false} SearchFirst(s: string, at: string -> Option<string>, k: nat)
    requires k <= |s| && at(s[k..]).Some?
    requires forall j :: 0 <= j < k ==> at(s[j..]).None?
    ensures Search(s, at) == at(s[k..])
  {
    if k > 0 {
      assert at(s[0..]).None? && s[0..] == s;
      forall j | 0 <= j < k - 1
        ensures at(s[1..][j..]).None?
      {
        assert s[1..][j..] == s[j + 1..];
      }
      assert s[1..][k - 1..] == s[k..];
      SearchFirst(s[1..], at, k - 1);
    }
  }

  /** The search finds nothing exactly when the pattern matches at no position. */
  lemma {:induction false} SearchNone(s: string, at: string -> Option<string>)
    ensures Search(s, at).None? <==> forall k :: 0 <= k <= |s| ==> at(s[k..]).None?
    decreases |s|
  {
    assert s[0..] == s;
    if s != [] {
      SearchNone(s[1..], at);
      forall k | 1 <= k <= |s|
        ensures s[1..][k - 1..] == s[k..]
      {
      }
    }
  }

  /** The leading digits of digits followed by a non-digit are those digits. */
  lemma {:induction false} DigitPrefixUpTo(x: string, t: string)
    requires AllDigits(x)
    requires t == [] || !IsDigit(t[0])
    ensures DigitPrefix(x + t) == x
  {
    if x != [] {
      assert (x + t)[0] == x[0] && (x + t)[1..] == x[1..] + t;
      DigitPrefixUpTo(x[1..], t);
    } else {
      assert x + t == t;
    }
  }

  /** The leading word characters of a word followed by a non-word character are that word. */
  lemma {:induction false} WordPrefixUpTo(x: string, t: string)
    requires forall i :: 0 <= i < |x| ==> IsWordChar(x[i])
    requires t == [] || !IsWordChar(t[0])
    ensures WordPrefix(x + t) == x
  {
    if x != [] {
      assert (x + t)[0] == x[0] && (x + t)[1..] == x[1..] + t;
      WordPrefixUpTo(x[1..], t);
    } else {
      assert x + t == t;
    }
  }

  /** A leading group followed by a dot is taken whole, and the rest is matched after the dot. */
  lemma GroupsCons(x: string, rest: string, n: nat, width: Width)
    requires x != [] && AllDigits(x) && (width.AnyWidth? || |x| <= 3) && n >= 2
    ensures Groups(x + "." + rest, n, width) ==
      match Groups(rest, n - 1, width)
      case Some(m) => Some(x + "." + m)
      case None => None
  {
    var s := x + "." + rest;
    assert s == x + ("." + rest);
    DigitPrefixUpTo(x, "." + rest);
    assert s[|x|] == '.' && s[|x| + 1..] == rest;
  }

  /** The last group is taken whole when it fits the width. */
  lemma GroupsLast(x: string, t: string, width: Width)
    requires x != [] && AllDigits(x) && (width.AnyWidth? || |x| <= 3)
    requires t == [] || !IsDigit(t[0])
    ensures Groups(x + t, 1, width) == Some(x)
  {
    DigitPrefixUpTo(x, t);
  }

  /** One more group in front of a match of the remaining groups. */
  lemma GroupsStep(x: string, rest: string, m: string, n: nat, width: Width)
    requires x != [] && AllDigits(x) && (width.AnyWidth? || |x| <= 3) && n >= 2
    requires Groups(rest, n - 1, width) == Some(m)
    ensures Groups(x + "." + rest, n, width) == Some(x + "." + m)
  {
    GroupsCons(x, rest, n, width);
  }

  /** Four non-empty digit groups written with dots match the quad pattern whole. */
  lemma QuadOfGroups(a: string, b: string, c: string, d: string, width: Width)
    requires a != [] && b != [] && c != [] && d != []
    requires AllDigits(a) && AllDigits(b) && AllDigits(c) && AllDigits(d)
    requires width.AnyWidth? || (|a| <= 3 && |b| <= 3 && |c| <= 3 && |d| <= 3)
    ensures Groups(Dotted(a, b, c, d), 4, width) == Some(Dotted(a, b, c, d))
  {
    GroupsLast(d, [], width);
    assert d + [] == d;
    GroupsStep(c, d, d, 2, width);
    GroupsStep(b, c + "." + d, c + "." + d, 3, width);
    GroupsStep(a, b + "." + (c + "." + d), b + "." + (c + "." + d), 4, width);
  }

  /** Four non-empty digit groups written with dots form a quad line. */
  lemma DottedIsQuadLine(a: string, b: string, c: string, d: string)
    requires a != [] && b != [] && c != [] && d != []
    requires AllDigits(a) && AllDigits(b) && AllDigits(c) && AllDigits(d)
    ensures IsQuadLine(Dotted(a, b, c, d))
  {
    QuadOfGroups(a, b, c, d, AnyWidth);
  }

  /** Digits and dots only, beginning with a digit. */
  predicate IsAddressText(s: string) {
    s != [] && IsDigit(s[0]) && forall i :: 0 <= i < |s| ==> IsAddressChar(s[i])
  }

  /** A quad line holds only digits and dots, so in particular no line break or space. */
  lemma QuadLineChars(s: string)
    requires IsQuadLine(s)
    ensures IsAddressText(s)
  {
    var d := DigitPrefix(s);
    assert d != [];
  }

  /** Trimming leaves a quad line as it is. */
  lemma QuadLineTrimmed(s: string)
    requires IsQuadLine(s)
    ensures Trim(s) == s
  {
    QuadLineChars(s);
    AddressTextTrimmed(s);
    TrimOfTrimmed(s);
  }

  lemma AddressTextTrimmed(s: string)
    requires IsAddressText(s)
    ensures IsTrimmed(s)
  {
    assert IsAddressChar(s[|s| - 1]);
  }

  /** A piece without a run of white space, ending in a non-space, stays in one part. */
  lemma {:induction false} SplitWideKeeps(p: string, tail: string)
    requires p == [] || (NoDoubleSpace(p) && !IsWhitespace(p[|p| - 1]))
    ensures var t := SplitWide(tail);
      SplitWide(p + tail) == [p + t[0]] + t[1..]
  {
    var t := SplitWide(tail);
    if p == [] {
      assert p + tail == tail && p + t[0] == t[0] && [t[0]] + t[1..] == t;
    } else {
      var s := p + tail;
      assert s[0] == p[0] && s[1..] == p[1..] + tail;
      if |p| > 1 {
        assert s[1] == p[1];
      }
      SplitWideKeeps(p[1..], tail);
      assert [p[0]] + (p[1..] + t[0]) == p + t[0];
    }
  }

  /** A two-space gap before a non-space ends the current part. */
  lemma SplitWideGap(rest: string)
    requires rest != [] && !IsWhitespace(rest[0])
    ensures SplitWide("  " + rest) == [[]] + SplitWide(rest)
  {
    var s := "  " + rest;
    assert s[2..] == rest;
  }

  /** A row written as cells separated by two spaces splits back into its cells. */
  lemma {:induction false} SplitWideCells(cells: seq<string>)
    requires |cells| >= 1 && forall i :: 0 <= i < |cells| ==> IsCell(cells[i])
    ensures SplitWide(Join(cells, "  ")) == cells
  {
    if |cells| == 1 {
      SplitWideKeeps(cells[0], []);
      assert cells[0] + [] == cells[0];
    } else {
      var rest := Join(cells[1..], "  ");
      SplitWideCells(cells[1..]);
      JoinEnds(cells[1..], "  ");
      SplitWideGap(rest);
      var tail := "  " + rest;
      SplitWideKeeps(cells[0], tail);
      assert Join(cells, "  ") == cells[0] + tail;
      assert cells[0] + [] == cells[0] && [cells[0]] + cells[1..] == cells;
    }
  }
}
