/**
 * Validation of DNS server addresses: the IPv4 syntax check, the comma-separated input
 * parser, the one-or-two server list validation, the private-range classification and the
 * display format.
 */
module DnsValidators {
  import opened Wrappers
  import opened Text

  // ---------------------------------------------------------------- the IPv4 pattern

  /**
   * One octet of the IPv4 pattern, the alternation `25[0-5] | 2[0-4][0-9] | [01]?[0-9][0-9]?`
   * written out alternative by alternative.
   */
  predicate IsOctetText(s: string) {
    || (|s| == 3 && s[0] == '2' && s[1] == '5' && '0' <= s[2] <= '5')
    || (|s| == 3 && s[0] == '2' && '0' <= s[1] <= '4' && IsDigit(s[2]))
    || (|s| == 3 && (s[0] == '0' || s[0] == '1') && IsDigit(s[1]) && IsDigit(s[2]))
    || (|s| == 2 && IsDigit(s[0]) && IsDigit(s[1]))
    || (|s| == 1 && IsDigit(s[0]))
  }

  /** An octet in plain terms: one to three decimal digits valued at most 255, leading zeros allowed. */
  predicate IsOctetValue(s: string) {
    1 <= |s| <= 3 && AllDigits(s) && DigitsValue(s) <= 255
  }

  /** The pattern's octet alternation accepts exactly the digit strings of length 1 to 3 valued 0..255. */
  lemma OctetTextIsValue(s: string)
    ensures IsOctetText(s) <==> IsOctetValue(s)
  {
    if |s| == 3 && AllDigits(s) {
      var s2, s1 := s[..2], s[..1];
      assert s2[..1] == s1 && s1[..0] == [];
      assert DigitsValue(s1) == DigitValue(s[0]);
      assert DigitsValue(s2) == DigitValue(s[0]) * 10 + DigitValue(s[1]);
      assert DigitsValue(s) == (DigitValue(s[0]) * 10 + DigitValue(s[1])) * 10 + DigitValue(s[2]);
    } else if |s| == 2 && AllDigits(s) {
      assert s[..1][..0] == [];
      DigitsBound(s);
    } else if |s| == 1 && AllDigits(s) {
      DigitsBound(s);
    }
  }

  /**
   * The whole anchored pattern `^(octet\.){3}octet$`: a dot cannot occur inside an octet, so
   * the string is four octets exactly when its dot-separated pieces are four octets.
   */
  predicate MatchesIPv4Pattern(t: string) {
    var parts := Split(t, '.');
    |parts| == 4 && forall i :: 0 <= i < 4 ==> IsOctetText(parts[i])
  }

  /** `isValidIPv4`: false for the empty string; otherwise the pattern must match the trimmed text. */
  predicate IsValidIPv4(ip: string) {
    ip != [] && MatchesIPv4Pattern(Trim(ip))
  }

  /** `isValidDnsAddress` delegates to `isValidIPv4`. */
  predicate IsValidDnsAddress(address: string) {
    IsValidIPv4(address)
  }

  /** The dotted-decimal text of four numbers, each in its canonical decimal form. */
  function Quad(a: nat, b: nat, c: nat, d: nat): string {
    Join([NatToString(a), NatToString(b), NatToString(c), NatToString(d)], ".")
  }

  lemma NumeralHasNoDot(n: nat)
    ensures '.' !in NatToString(n) && ',' !in NatToString(n)
  {
    var s := NatToString(n);
    assert forall i :: 0 <= i < |s| ==> s[i] != '.' && s[i] != ',';
  }

  /** A digit string has no white space at either end. */
  lemma DigitsTrimmed(s: string)
    requires AllDigits(s)
    ensures IsTrimmed(s)
  {
    if s != [] {
      assert IsDigit(s[0]) && IsDigit(s[|s| - 1]);
    }
  }

  /** The four pieces of a dotted quad are the numerals of its numbers. */
  lemma QuadParts(a: nat, b: nat, c: nat, d: nat)
    ensures Split(Quad(a, b, c, d), '.') == [NatToString(a), NatToString(b), NatToString(c), NatToString(d)]
  {
    NumeralHasNoDot(a); NumeralHasNoDot(b); NumeralHasNoDot(c); NumeralHasNoDot(d);
    SplitJoin([NatToString(a), NatToString(b), NatToString(c), NatToString(d)], '.');
  }

  lemma QuadTrimmed(a: nat, b: nat, c: nat, d: nat)
    ensures Quad(a, b, c, d) != [] && Trim(Quad(a, b, c, d)) == Quad(a, b, c, d)
  {
    var q := Quad(a, b, c, d);
    var xs := [NatToString(a), NatToString(b), NatToString(c), NatToString(d)];
    assert q == xs[0] + "." + Join(xs[1..], ".");
    assert xs[1..] == [NatToString(b), NatToString(c), NatToString(d)];
    assert Join(xs[1..], ".") == xs[1] + "." + Join(xs[2..], ".");
    assert xs[2..] == [NatToString(c), NatToString(d)];
    assert Join(xs[2..], ".") == xs[2] + "." + Join(xs[3..], ".");
    assert xs[3..] == [NatToString(d)];
    assert q[0] == NatToString(a)[0] && IsDigit(q[0]);
    var last := NatToString(d);
    assert q[|q| - 1] == last[|last| - 1] && IsDigit(q[|q| - 1]);
    TrimOfTrimmed(q);
  }

  lemma OctetNoDot(s: string)
    requires IsOctetText(s)
    ensures s != [] && '.' !in s
  {
    OctetTextIsValue(s);
    assert forall j :: 0 <= j < |s| ==> IsDigit(s[j]);
  }

  /** Four octets joined by dots are accepted. */
  lemma OctetsJoinValid(xs: seq<string>)
    requires |xs| == 4 && forall i :: 0 <= i < 4 ==> IsOctetText(xs[i])
    ensures IsValidIPv4(Join(xs, "."))
  {
    forall i | 0 <= i < 4 ensures '.' !in xs[i] && xs[i] != [] {
      OctetNoDot(xs[i]);
    }
    SplitJoin(xs, '.');
    JoinEnds(xs, ".");
    OctetTextIsValue(xs[0]);
    OctetTextIsValue(xs[3]);
    TrimOfTrimmed(Join(xs, "."));
  }

  /** Every canonical dotted quad of numbers 0..255 is accepted. */
  lemma QuadIsValid(a: nat, b: nat, c: nat, d: nat)
    requires a <= 255 && b <= 255 && c <= 255 && d <= 255
    ensures IsValidIPv4(Quad(a, b, c, d))
  {
    forall n: nat | n <= 255 ensures IsOctetText(NatToString(n)) {
      NatToStringShort(n);
      NatToStringValue(n);
      OctetTextIsValue(NatToString(n));
    }
    OctetsJoinValid([NatToString(a), NatToString(b), NatToString(c), NatToString(d)]);
  }

  /** A number above 255 in the first position is rejected. */
  lemma QuadOutOfRange(a: nat, b: nat, c: nat, d: nat)
    requires a > 255
    ensures !IsValidIPv4(Quad(a, b, c, d))
  {
    QuadParts(a, b, c, d);
    QuadTrimmed(a, b, c, d);
    NatToStringValue(a);
    OctetTextIsValue(NatToString(a));
  }

  /**
   * Soundness and completeness together: `ip` is accepted exactly when it is non-empty and its
   * trimmed text is four pieces, each of one to three digits valued at most 255, joined by dots.
   */
  lemma IsValidIPv4Characterized(ip: string)
    ensures IsValidIPv4(ip) <==>
      (ip != [] &&
       var parts := Split(Trim(ip), '.');
       |parts| == 4 && (forall i :: 0 <= i < 4 ==> IsOctetValue(parts[i])) &&
       Join(parts, ".") == Trim(ip))
  {
    JoinSplit(Trim(ip), '.');
    forall i | 0 <= i < |Split(Trim(ip), '.')| {
      OctetTextIsValue(Split(Trim(ip), '.')[i]);
    }
  }

  /** Leading zeros are accepted: `010.0.0.1` is a valid address. */
  lemma LeadingZerosAccepted()
    ensures IsValidIPv4("010.0.0.1")
  {
    var xs := ["010", "0", "0", "1"];
    assert Join(xs[3..], ".") == "1";
    assert Join(xs[2..], ".") == "0.1";
    assert Join(xs[1..], ".") == "0.0.1";
    assert Join(xs, ".") == "010.0.0.1";
    OctetsJoinValid(xs);
  }

  // ---------------------------------------------------------------- list validation

  datatype Validation = Validation(isValid: bool, errors: seq<string>, validServers: seq<string>)

  const NoServerError := "At least one DNS server is required"
  const TooManyError := "Maximum of 2 DNS servers allowed"

  /** The message for an invalid entry at the zero-based `index`; the position shown is one-based. */
  function PositionError(index: nat, server: string): string {
    "Invalid DNS address at position " + NatToString(index + 1) + ": " + server
  }

  /** The trimmed valid entries among the first `n` of `s`, in order. */
  function TrimmedValid(s: seq<string>, n: nat): (r: seq<string>)
    requires n <= |s|
    ensures |r| <= n
  {
    if n == 0 then []
    else
      var t := Trim(s[n - 1]);
      TrimmedValid(s, n - 1) + (if IsValidDnsAddress(t) then [t] else [])
  }

  /** One positional error per entry among the first `n` of `s` whose trimmed text is not valid. */
  function PositionErrors(s: seq<string>, n: nat): seq<string>
    requires n <= |s|
  {
    if n == 0 then []
    else
      var t := Trim(s[n - 1]);
      PositionErrors(s, n - 1) + (if IsValidDnsAddress(t) then [] else [PositionError(n - 1, s[n - 1])])
  }

  /** `validateDnsServers` as a value: what the loop over the first two entries builds. */
  function Validate(servers: seq<string>): Validation {
    if servers == [] then Validation(false, [NoServerError], [])
    else
      var m := if |servers| < 2 then |servers| else 2;
      var errors := (if |servers| > 2 then [TooManyError] else []) + PositionErrors(servers, m);
      var valid := TrimmedValid(servers, m);
      Validation(errors == [] && valid != [], errors, valid)
  }

  /**
   * `validateDnsServers`: rejects the empty list, flags a list longer than two, then walks the
   * first two entries, keeping the trimmed valid ones and reporting the others by position.
   */
  method ValidateDnsServers(servers: seq<string>) returns (v: Validation)
    ensures v == Validate(servers)
  {
    if |servers| == 0 {
      return Validation(false, [NoServerError], []);
    }
    var errors: seq<string> := [];
    var validServers: seq<string> := [];
    if |servers| > 2 {
      errors := errors + [TooManyError];
    }
    var m := if |servers| < 2 then |servers| else 2;
    ghost var first := if |servers| > 2 then [TooManyError] else [];
    var index := 0;
    while index < m
      invariant 0 <= index <= m
      invariant validServers == TrimmedValid(servers, index)
      invariant errors == first + PositionErrors(servers, index)
    {
      var server := servers[index];
      var trimmed := Trim(server);
      if IsValidDnsAddress(trimmed) {
        StepValid(servers, index);
        validServers := validServers + [trimmed];
      } else {
        StepInvalid(servers, index);
        errors := errors + [PositionError(index, server)];
      }
      index := index + 1;
    }
    v := Validation(errors == [] && validServers != [], errors, validServers);
  }

  /** A valid entry extends the valid list and adds no error. */
  lemma StepValid(s: seq<string>, i: nat)
    requires i < |s| && IsValidDnsAddress(Trim(s[i]))
    ensures TrimmedValid(s, i + 1) == TrimmedValid(s, i) + [Trim(s[i])]
    ensures PositionErrors(s, i + 1) == PositionErrors(s, i)
  {
  }

  /** An invalid entry adds its positional error and nothing to the valid list. */
  lemma StepInvalid(s: seq<string>, i: nat)
    requires i < |s| && !IsValidDnsAddress(Trim(s[i]))
    ensures TrimmedValid(s, i + 1) == TrimmedValid(s, i)
    ensures PositionErrors(s, i + 1) == PositionErrors(s, i) + [PositionError(i, s[i])]
  {
  }

  lemma {:induction false} TrimmedValidFacts(s: seq<string>, n: nat)
    requires n <= |s|
    ensures forall i :: 0 <= i < |TrimmedValid(s, n)| ==>
      IsValidDnsAddress(TrimmedValid(s, n)[i]) && IsTrimmed(TrimmedValid(s, n)[i])
    ensures |TrimmedValid(s, n)| + |PositionErrors(s, n)| == n
  {
    if n > 0 {
      TrimmedValidFacts(s, n - 1);
      if IsValidDnsAddress(Trim(s[n - 1])) {
        StepValid(s, n - 1);
      } else {
        StepInvalid(s, n - 1);
      }
    }
  }

  /** The empty list yields exactly the one "required" error. */
  lemma ValidateEmpty()
    ensures Validate([]) == Validation(false, [NoServerError], [])
  {
  }

  /**
   * Only the first two entries are examined: the valid servers are at most two, each valid and
   * trimmed, and every examined entry contributes either a valid server or one positional error,
   * after the one "maximum" error of a longer list. The list is valid exactly when no error
   * was collected and some server is valid.
   */
  lemma ValidateFacts(servers: seq<string>)
    requires servers != []
    ensures var v := Validate(servers);
      && |v.validServers| <= 2
      && (forall i :: 0 <= i < |v.validServers| ==>
            IsValidDnsAddress(v.validServers[i]) && IsTrimmed(v.validServers[i]))
      && (|servers| > 2 <==> |v.errors| > 0 && v.errors[0] == TooManyError)
      && |v.errors| + |v.validServers| == (if |servers| > 2 then 3 else |servers|)
      && (v.isValid <==> v.errors == [] && v.validServers != [])
  {
    var m := if |servers| < 2 then |servers| else 2;
    TrimmedValidFacts(servers, m);
    PositionErrorsShape(servers, m);
  }

  /** No positional error is the "maximum" error: they begin differently. */
  lemma {:induction false} PositionErrorsShape(s: seq<string>, n: nat)
    requires n <= |s|
    ensures forall i :: 0 <= i < |PositionErrors(s, n)| ==> PositionErrors(s, n)[i] != TooManyError
  {
    if n > 0 {
      PositionErrorsShape(s, n - 1);
      if IsValidDnsAddress(Trim(s[n - 1])) {
        StepValid(s, n - 1);
      } else {
        StepInvalid(s, n - 1);
        var e := PositionError(n - 1, s[n - 1]);
        assert e[0] == 'I';
        assert TooManyError[0] == 'M';
      }
    }
  }

  /** Two valid addresses validate, trimmed and in order. */
  lemma ValidateTwoValid(p: string, s: string)
    requires IsValidDnsAddress(Trim(p)) && IsValidDnsAddress(Trim(s))
    ensures Validate([p, s]) == Validation(true, [], [Trim(p), Trim(s)])
  {
    StepValid([p, s], 0);
    StepValid([p, s], 1);
  }

  // ---------------------------------------------------------------- comma-separated input

  /** The trimmed non-empty pieces, in order. */
  function NonEmptyTrimmed(pieces: seq<string>): (r: seq<string>)
    ensures |r| <= |pieces|
    ensures forall i :: 0 <= i < |r| ==> r[i] != [] && IsTrimmed(r[i])
  {
    if pieces == [] then []
    else
      var t := Trim(pieces[0]);
      (if t == [] then [] else [t]) + NonEmptyTrimmed(pieces[1..])
  }

  /** `parseDnsInput`: split on commas, trim each piece, drop the empty ones. */
  function ParseDnsInput(input: string): (r: seq<string>)
    ensures forall i :: 0 <= i < |r| ==> r[i] != [] && IsTrimmed(r[i]) && ',' !in r[i]
  {
    if input == [] then []
    else
      var r := NonEmptyTrimmed(Split(input, ','));
      assert forall i :: 0 <= i < |r| ==> ',' !in r[i] by {
        SplitPiecesFree(input, ',');
        NonEmptyTrimmedFrom(Split(input, ','), ',');
      }
      r
  }

  lemma {:induction false} NonEmptyTrimmedFrom(pieces: seq<string>, c: char)
    requires forall i :: 0 <= i < |pieces| ==> c !in pieces[i]
    ensures forall i :: 0 <= i < |NonEmptyTrimmed(pieces)| ==> c !in NonEmptyTrimmed(pieces)[i]
  {
    if pieces != [] {
      NonEmptyTrimmedFrom(pieces[1..], c);
      var k := TrimBounds(pieces[0]);
      var t := Trim(pieces[0]);
      assert forall j :: 0 <= j < |t| ==> t[j] == pieces[0][k + j];
    }
  }

  lemma {:induction false} NonEmptyTrimmedKeeps(xs: seq<string>)
    requires forall i :: 0 <= i < |xs| ==> xs[i] != [] && IsTrimmed(xs[i])
    ensures NonEmptyTrimmed(xs) == xs
  {
    if xs != [] {
      TrimOfTrimmed(xs[0]);
      NonEmptyTrimmedKeeps(xs[1..]);
    }
  }

  /** Joining clean entries with commas and parsing the result gives the entries back. */
  lemma ParseJoinRoundTrip(xs: seq<string>)
    requires forall i :: 0 <= i < |xs| ==> xs[i] != [] && IsTrimmed(xs[i]) && ',' !in xs[i]
    ensures ParseDnsInput(Join(xs, ",")) == xs
  {
    if xs != [] {
      SplitJoin(xs, ',');
      assert Join(xs, ",") != [] by {
        JoinNonEmpty(xs, ",");
      }
      NonEmptyTrimmedKeeps(xs);
    }
  }

  lemma {:induction false} JoinNonEmpty(xs: seq<string>, sep: string)
    requires xs != [] && xs[0] != []
    ensures Join(xs, sep) != []
  {
  }

  // ---------------------------------------------------------------- private ranges

  /** The ranges the source calls private: 10/8, 172.16/12, 192.168/16 and the loopback 127/8. */
  predicate PrivateRange(a: nat, b: nat) {
    a == 10 || (a == 172 && 16 <= b <= 31) || (a == 192 && b == 168) || a == 127
  }

  /**
   * `isPrivateAddress`: a valid address whose first two dot-separated pieces, read with
   * `Number`, fall in one of the ranges. The pieces are taken from the untrimmed text, which
   * `Number` trims again.
   */
  predicate IsPrivateAddress(ip: string) {
    IsValidIPv4(ip) &&
    var parts := Split(ip, '.');
    |parts| >= 2 &&
    var a := JsNumber(parts[0]);
    var b := JsNumber(parts[1]);
    || a == Some(10)
    || (a == Some(172) && b.Some? && 16 <= b.value <= 31)
    || (a == Some(192) && b == Some(168))
    || a == Some(127)
  }

  /** Invalid text is never private. */
  lemma PrivateNeedsValid(ip: string)
    requires IsPrivateAddress(ip)
    ensures IsValidIPv4(ip)
  {
  }

  /**
   * For every valid address, private means the values of its first two octets lie in one of
   * the ranges, whatever white space surrounds it and whatever leading zeros its octets carry.
   */
  lemma PrivateByOctets(ip: string)
    requires IsValidIPv4(ip)
    ensures var p := Split(Trim(ip), '.');
      AllDigits(p[0]) && AllDigits(p[1]) &&
      (IsPrivateAddress(ip) <==> PrivateRange(DigitsValue(p[0]), DigitsValue(p[1])))
  {
    var t := Trim(ip);
    var p := Split(t, '.');
    OctetTextIsValue(p[0]);
    OctetTextIsValue(p[1]);
    var pre := LeadingPieces(ip);
    DigitsTrimmed(p[0]);
    DigitsTrimmed(p[1]);
    TrimPadded(pre, p[0], []);
    assert pre + p[0] + [] == Split(ip, '.')[0];
    TrimPadded([], p[1], []);
    assert [] + p[1] + [] == p[1];
  }

  /**
   * The first two dot-separated pieces of a text with four or more pieces after trimming: the
   * first carries the leading white space, the second is untouched.
   */
  lemma LeadingPieces(ip: string) returns (pre: string)
    requires |Split(Trim(ip), '.')| >= 3
    ensures forall i :: 0 <= i < |pre| ==> IsWhitespace(pre[i])
    ensures var parts, p := Split(ip, '.'), Split(Trim(ip), '.');
      |parts| >= 2 && parts[0] == pre + p[0] && parts[1] == p[1]
  {
    var t := Trim(ip);
    var p := Split(t, '.');
    var k := TrimBounds(ip);
    pre := ip[..k];
    var post := ip[k + |t|..];
    assert ip == pre + t + post;
    assert forall j :: 0 <= j < |pre| ==> pre[j] == ip[j];
    assert forall j :: 0 <= j < |post| ==> post[j] == ip[k + |t| + j];
    assert '.' !in pre && '.' !in post;
    SplitAppend(t, post, '.');
    var q := Split(t + post, '.');
    assert q[0] == p[0] && q[1] == p[1];
    SplitPrepend(pre, t + post, '.');
    assert pre + (t + post) == ip;
  }

  /** On canonical dotted quads: private exactly in the listed ranges; 169.254/16 is not among them. */
  lemma PrivateQuad(a: nat, b: nat, c: nat, d: nat)
    requires a <= 255 && b <= 255 && c <= 255 && d <= 255
    ensures IsPrivateAddress(Quad(a, b, c, d)) <==> PrivateRange(a, b)
  {
    QuadIsValid(a, b, c, d);
    QuadTrimmed(a, b, c, d);
    QuadParts(a, b, c, d);
    PrivateByOctets(Quad(a, b, c, d));
    NatToStringValue(a);
    NatToStringValue(b);
  }

  // ---------------------------------------------------------------- display

  /** `formatDnsServers`: "None" for an empty list, otherwise the entries joined by ", ". */
  function FormatDnsServers(servers: seq<string>): (r: string)
    ensures servers == [] ==> r == "None"
    ensures |servers| == 1 ==> r == servers[0]
  {
    if servers == [] then "None" else Join(servers, ", ")
  }

  /** Every entry with the space of the ", " separator in front. */
  function Spaced(ys: seq<string>): (r: seq<string>)
    ensures |r| == |ys|
    ensures forall i :: 0 <= i < |ys| ==> r[i] == " " + ys[i]
  {
    if ys == [] then [] else [" " + ys[0]] + Spaced(ys[1..])
  }

  /** Joining with ", " is joining with "," after putting the space in front of each later entry. */
  lemma {:induction false} JoinCommaSpace(ys: seq<string>)
    requires ys != []
    ensures " " + Join(ys, ", ") == Join(Spaced(ys), ",")
  {
    if |ys| > 1 {
      JoinCommaSpace(ys[1..]);
      assert Spaced(ys)[1..] == Spaced(ys[1..]);
      assert " " + Join(ys, ", ") == (" " + ys[0]) + "," + (" " + Join(ys[1..], ", "));
    }
  }

  /** The displayed list parses back into the list it shows. */
  lemma FormatParseRoundTrip(xs: seq<string>)
    requires xs != []
    requires forall i :: 0 <= i < |xs| ==> xs[i] != [] && IsTrimmed(xs[i]) && ',' !in xs[i]
    ensures ParseDnsInput(FormatDnsServers(xs)) == xs
  {
    var ys := [xs[0]] + Spaced(xs[1..]);
    if |xs| > 1 {
      JoinCommaSpace(xs[1..]);
      assert Join(xs, ", ") == xs[0] + "," + (" " + Join(xs[1..], ", "));
      assert ys[1..] == Spaced(xs[1..]);
    }
    assert Join(xs, ", ") == Join(ys, ",");
    forall i | 0 <= i < |ys| ensures ',' !in ys[i] && Trim(ys[i]) == xs[i] {
      if i == 0 {
        TrimOfTrimmed(xs[0]);
      } else {
        assert ys[i] == " " + xs[i];
        TrimPadded(" ", xs[i], []);
        assert " " + xs[i] + [] == ys[i];
      }
    }
    SplitJoin(ys, ',');
    JoinNonEmpty(ys, ",");
    NonEmptyTrimmedOf(ys, xs);
  }

  lemma {:induction false} NonEmptyTrimmedOf(ys: seq<string>, xs: seq<string>)
    requires |ys| == |xs|
    requires forall i :: 0 <= i < |xs| ==> xs[i] != [] && Trim(ys[i]) == xs[i]
    ensures NonEmptyTrimmed(ys) == xs
  {
    if ys != [] {
      NonEmptyTrimmedOf(ys[1..], xs[1..]);
    }
  }
}
