/**
 * Origin-AS extraction from an AS-path string, shared by both revisions of
 * `load_cidr_by_asns`:  int(re.split('[ ,]+', path)[-1].strip('{}')).
 * Splitting, brace stripping and integer parsing are each given an
 * independent characterisation and proved against it. The functions carry
 * only the postconditions their callers need to be well formed; what they
 * compute is stated by the lemmas beside them.
 */
module Origin {
  import opened Wrappers

  // ---------------------------------------------------------------------------
  // Splitting on the pattern [ ,]+
  // ---------------------------------------------------------------------------

  predicate IsSeparator(c: char) { c == ' ' || c == ',' }

  predicate NoSeparator(s: string) {
    forall i :: 0 <= i < |s| ==> !IsSeparator(s[i])
  }

  /** Index of the first separator of `s`, or `|s|` when it has none. */
  function FirstSeparator(s: string): (i: nat)
    ensures i <= |s|
  {
    if |s| == 0 || IsSeparator(s[0]) then 0 else 1 + FirstSeparator(s[1..])
  }

  lemma {:induction false} FirstSeparatorShape(s: string)
    ensures NoSeparator(s[..FirstSeparator(s)])
    ensures FirstSeparator(s) < |s| ==> IsSeparator(s[FirstSeparator(s)])
  {
    if |s| > 0 && !IsSeparator(s[0]) {
      FirstSeparatorShape(s[1..]);
      assert s[..FirstSeparator(s)] == [s[0]] + s[1..][..FirstSeparator(s[1..])];
    }
  }

  /** End of the maximal run of separators that starts at `i`. */
  function RunEnd(s: string, i: nat): (j: nat)
    requires i <= |s|
    ensures i <= j <= |s|
    ensures i < |s| && IsSeparator(s[i]) ==> i < j
    decreases |s| - i
  {
    if i < |s| && IsSeparator(s[i]) then RunEnd(s, i + 1) else i
  }

  /** The run is maximal: all separators, followed by the end of `s` or a non-separator. */
  lemma {:induction false} RunEndShape(s: string, i: nat)
    requires i <= |s|
    ensures forall k :: i <= k < RunEnd(s, i) ==> IsSeparator(s[k])
    ensures RunEnd(s, i) < |s| ==> !IsSeparator(s[RunEnd(s, i)])
    decreases |s| - i
  {
    if i < |s| && IsSeparator(s[i]) {
      RunEndShape(s, i + 1);
    }
  }

  /**
   * re.split('[ ,]+', s): the pieces between maximal separator runs. A
   * leading run yields an empty first piece and a trailing run an empty
   * last piece, as in Python.
   */
  function Split(s: string): (r: seq<string>)
    ensures |r| >= 1
    decreases |s|
  {
    var i := FirstSeparator(s);
    if i == |s| then [s]
    else [s[..i]] + Split(s[RunEnd(s, i)..])
  }

  /** No piece of the split contains a separator. */
  lemma {:induction false} SplitPiecesHaveNoSeparator(s: string)
    ensures forall k :: 0 <= k < |Split(s)| ==> NoSeparator(Split(s)[k])
    decreases |s|
  {
    var i := FirstSeparator(s);
    FirstSeparatorShape(s);
    if i == |s| {
      assert s[..i] == s;
    } else {
      var rest := s[RunEnd(s, i)..];
      SplitPiecesHaveNoSeparator(rest);
      assert Split(s) == [s[..i]] + Split(rest);
    }
  }

  /** Reference definition of the last piece: the longest separator-free suffix of `s`. */
  function TrailingToken(s: string): (t: string)
    ensures |t| <= |s|
  {
    if |s| == 0 || IsSeparator(s[|s| - 1]) then [] else TrailingToken(s[..|s| - 1]) + [s[|s| - 1]]
  }

  lemma {:induction false} TrailingTokenShape(s: string)
    ensures var t := TrailingToken(s);
      t == s[|s| - |t|..] && NoSeparator(t) && (|t| < |s| ==> IsSeparator(s[|s| - |t| - 1]))
  {
    if |s| > 0 && !IsSeparator(s[|s| - 1]) {
      var init := s[..|s| - 1];
      var t := TrailingToken(init);
      TrailingTokenShape(init);
      var u := t + [s[|s| - 1]];
      assert TrailingToken(s) == u;
      assert init[|init| - |t|..] + [s[|s| - 1]] == s[|s| - |u|..];
      assert NoSeparator(u) by {
        forall i | 0 <= i < |u| ensures !IsSeparator(u[i]) {
          if i < |t| { assert u[i] == t[i]; }
        }
      }
      if |u| < |s| {
        assert s[|s| - |u| - 1] == init[|init| - |t| - 1];
      }
    }
  }

  /** A separator-free suffix that is all of `s` or follows a separator is the trailing token. */
  lemma TrailingTokenUnique(s: string, t: string)
    requires |t| <= |s| && t == s[|s| - |t|..]
    requires NoSeparator(t)
    requires |t| < |s| ==> IsSeparator(s[|s| - |t| - 1])
    ensures t == TrailingToken(s)
  {
    var u := TrailingToken(s);
    TrailingTokenShape(s);
    assert |t| == |u|;
  }

  /** Dropping a prefix that ends in a separator keeps the trailing token. */
  lemma {:induction false} TrailingTokenAfterSeparator(s: string, j: nat)
    requires 0 < j <= |s| && IsSeparator(s[j - 1])
    ensures TrailingToken(s[j..]) == TrailingToken(s)
    decreases |s|
  {
    if j < |s| && !IsSeparator(s[|s| - 1]) {
      var init := s[..|s| - 1];
      assert init[j - 1] == s[j - 1];
      TrailingTokenAfterSeparator(init, j);
      assert s[j..][..|s[j..]| - 1] == init[j..];
    }
  }

  /** The last piece of re.split('[ ,]+', s) is the longest separator-free suffix of `s`. */
  lemma {:induction false} SplitLastIsTrailingToken(s: string)
    ensures Split(s)[|Split(s)| - 1] == TrailingToken(s)
    decreases |s|
  {
    var i := FirstSeparator(s);
    FirstSeparatorShape(s);
    if i == |s| {
      assert s[..i] == s;
      TrailingTokenUnique(s, s);
    } else {
      var j := RunEnd(s, i);
      RunEndShape(s, i);
      assert IsSeparator(s[j - 1]);
      var rest := Split(s[j..]);
      assert Split(s) == [s[..i]] + rest;
      assert Split(s)[|Split(s)| - 1] == rest[|rest| - 1];
      SplitLastIsTrailingToken(s[j..]);
      TrailingTokenAfterSeparator(s, j);
    }
  }

  // ---------------------------------------------------------------------------
  // str.strip('{}')
  // ---------------------------------------------------------------------------

  predicate IsBrace(c: char) { c == '{' || c == '}' }

  function StripLeading(s: string): (r: string)
    ensures |r| <= |s|
  {
    if |s| > 0 && IsBrace(s[0]) then StripLeading(s[1..]) else s
  }

  lemma {:induction false} StripLeadingShape(s: string)
    ensures var r := StripLeading(s);
      r == s[|s| - |r|..] && (forall i :: 0 <= i < |s| - |r| ==> IsBrace(s[i])) && (|r| > 0 ==> !IsBrace(r[0]))
  {
    if |s| > 0 && IsBrace(s[0]) {
      StripLeadingShape(s[1..]);
    }
  }

  function StripTrailing(s: string): (r: string)
    ensures |r| <= |s|
  {
    if |s| > 0 && IsBrace(s[|s| - 1]) then StripTrailing(s[..|s| - 1]) else s
  }

  lemma {:induction false} StripTrailingShape(s: string)
    ensures var r := StripTrailing(s);
      r == s[..|r|] && (forall i :: |r| <= i < |s| ==> IsBrace(s[i])) && (|r| > 0 ==> !IsBrace(r[|r| - 1]))
  {
    if |s| > 0 && IsBrace(s[|s| - 1]) {
      StripTrailingShape(s[..|s| - 1]);
    }
  }

  /** s.strip('{}'): every leading and every trailing brace removed. */
  function StripBraces(s: string): (r: string)
    ensures |r| <= |s|
  {
    StripTrailing(StripLeading(s))
  }

  /** Number of braces that `s` starts with. */
  function LeadingBraces(s: string): nat
  {
    |s| - |StripLeading(s)|
  }

  /**
   * What remains after stripping is the slice of `s` that starts after its
   * leading braces; it neither starts nor ends with a brace, and everything
   * outside it is a brace.
   */
  lemma StripBracesShape(s: string)
    ensures var r := StripBraces(s); var a := LeadingBraces(s);
      a + |r| <= |s| && r == s[a..a + |r|] &&
      (|r| > 0 ==> !IsBrace(r[0]) && !IsBrace(r[|r| - 1])) &&
      forall k :: 0 <= k < |s| && (k < a || a + |r| <= k) ==> IsBrace(s[k])
  {
    var l := StripLeading(s);
    var r := StripTrailing(l);
    var a := LeadingBraces(s);
    StripLeadingShape(s);
    StripTrailingShape(l);
    assert forall k :: a + |r| <= k < |s| ==> s[k] == l[k - a];
  }

  // ---------------------------------------------------------------------------
  // int(...)
  // ---------------------------------------------------------------------------

  predicate IsDigit(c: char) { '0' <= c <= '9' }

  predicate AllDigits(s: string) {
    forall i :: 0 <= i < |s| ==> IsDigit(s[i])
  }

  predicate IsSign(c: char) { c == '+' || c == '-' }

  function DigitValue(c: char): nat
    requires IsDigit(c)
  {
    c as int - '0' as int
  }

  /** Reference value of a digit string, most significant digit first. */
  function DigitsValue(s: string): nat
    requires AllDigits(s)
  {
    if |s| == 0 then 0 else DigitsValue(s[..|s| - 1]) * 10 + DigitValue(s[|s| - 1])
  }

  /** The value of a non-empty run of decimal digits; None if it is empty or holds a non-digit. */
  function ParseDigits(s: string): Option<nat>
  {
    if |s| == 0 || !IsDigit(s[|s| - 1]) then None
    else if |s| == 1 then Some(DigitValue(s[0]))
    else
      match ParseDigits(s[..|s| - 1])
      case None => None
      case Some(v) => Some(v * 10 + DigitValue(s[|s| - 1]))
  }

  /** int(s) on an optional sign followed by decimal digits; anything else is a ValueError (None). */
  function ParseInt(s: string): Option<int>
  {
    if |s| > 0 && IsSign(s[0]) then
      match ParseDigits(s[1..])
      case None => None
      case Some(v) => Some(if s[0] == '-' then -(v as int) else v)
    else ParseDigits(s)
  }

  lemma {:induction false} ParseDigitsValue(s: string)
    ensures ParseDigits(s) == if |s| > 0 && AllDigits(s) then Some(DigitsValue(s)) else None
  {
    if |s| > 1 {
      var init := s[..|s| - 1];
      ParseDigitsValue(init);
      if IsDigit(s[|s| - 1]) && !AllDigits(init) {
        var i :| 0 <= i < |init| && !IsDigit(init[i]);
        assert s[i] == init[i];
      }
    } else if |s| == 1 {
      assert s[..0] == [];
    }
  }

  /** int(s) accepts exactly an optional sign and one or more digits, with their decimal value. */
  lemma ParseIntAccepts(s: string)
    ensures ParseInt(s).Some? <==> (|s| > 0 && AllDigits(s)) || (|s| > 1 && IsSign(s[0]) && AllDigits(s[1..]))
    ensures |s| > 0 && AllDigits(s) ==> ParseInt(s) == Some(DigitsValue(s))
    ensures |s| > 1 && s[0] == '-' && AllDigits(s[1..]) ==> ParseInt(s) == Some(-(DigitsValue(s[1..]) as int))
    ensures |s| > 1 && s[0] == '+' && AllDigits(s[1..]) ==> ParseInt(s) == Some(DigitsValue(s[1..]))
  {
    ParseDigitsValue(s);
    if |s| > 0 {
      ParseDigitsValue(s[1..]);
    }
  }

  /** The decimal rendering of a natural number (str(n)). */
  function Decimal(n: nat): (s: string)
    ensures |s| > 0
  {
    var d := ['0' + (n % 10) as char];
    if n < 10 then d else Decimal(n / 10) + d
  }

  lemma {:induction false} DecimalDigits(n: nat)
    ensures AllDigits(Decimal(n))
  {
    if n >= 10 {
      DecimalDigits(n / 10);
    }
  }

  /** int(str(n)) == n. */
  lemma {:induction false} DecimalRoundTrip(n: nat)
    ensures ParseDigits(Decimal(n)) == Some(n)
    ensures ParseInt(Decimal(n)) == Some(n)
  {
    var s := Decimal(n);
    if n >= 10 {
      DecimalRoundTrip(n / 10);
      assert s[..|s| - 1] == Decimal(n / 10);
    }
    DecimalDigits(n);
  }

  // ---------------------------------------------------------------------------
  // The origin AS
  // ---------------------------------------------------------------------------

  /** The last piece of the split path, braces stripped, parsed; None where Python raises. */
  function OriginAsn(asPath: string): Option<int>
  {
    var pieces := Split(asPath);
    ParseInt(StripBraces(pieces[|pieces| - 1]))
  }

  /** The origin is the trailing separator-free token of the path, braces stripped, parsed as an int. */
  lemma OriginIsTrailingToken(asPath: string)
    ensures OriginAsn(asPath) == ParseInt(StripBraces(TrailingToken(asPath)))
  {
    SplitLastIsTrailingToken(asPath);
  }

  /** The last piece of a path ending in a separator and a separator-free token is that token. */
  lemma LastPieceAfterSeparator(path: string, sep: char, tok: string)
    requires IsSeparator(sep) && NoSeparator(tok)
    ensures var pieces := Split(path + [sep] + tok); pieces[|pieces| - 1] == tok
  {
    var s := path + [sep] + tok;
    assert s[|s| - |tok|..] == tok;
    assert s[|s| - |tok| - 1] == sep;
    TrailingTokenUnique(s, tok);
    SplitLastIsTrailingToken(s);
  }

  /** Stripping an optional brace on either side of a string that starts and ends with a non-brace gives it back. */
  lemma StripWrapped(d: string, open: bool, close: bool)
    requires |d| > 0 && !IsBrace(d[0]) && !IsBrace(d[|d| - 1])
    ensures StripBraces((if open then "{" else "") + d + (if close then "}" else "")) == d
  {
    var o := if open then "{" else "";
    var c := if close then "}" else "";
    var tok := o + d + c;
    assert StripLeading(tok) == d + c by {
      if open { assert tok[1..] == d + c; }
      else { assert tok == d + c; }
    }
    assert StripTrailing(d + c) == d by {
      if close { assert (d + c)[..|d + c| - 1] == d; }
      else { assert d + c == d; }
    }
  }

  /**
   * A path whose last hop is a plain ASN, or the last member of an AS-SET
   * (a closing brace, or a single-member set in both braces), yields that ASN,
   * whatever precedes the separator.
   */
  lemma OriginOfLastHop(path: string, sep: char, n: nat, open: bool, close: bool)
    requires IsSeparator(sep)
    ensures OriginAsn(path + [sep] + (if open then "{" else "") + Decimal(n) + (if close then "}" else "")) == Some(n)
  {
    var o := if open then "{" else "";
    var c := if close then "}" else "";
    var d := Decimal(n);
    var tok := o + d + c;
    DecimalDigits(n);
    WrappedDigitsHaveNoSeparator(d, open, close);
    assert path + [sep] + o + d + c == path + [sep] + tok;
    LastPieceAfterSeparator(path, sep, tok);
    var pieces := Split(path + [sep] + tok);
    assert OriginAsn(path + [sep] + tok) == ParseInt(StripBraces(pieces[|pieces| - 1]));
    StripWrapped(d, open, close);
    DecimalRoundTrip(n);
  }

  /** Digits with an optional brace on either side contain no separator. */
  lemma WrappedDigitsHaveNoSeparator(d: string, open: bool, close: bool)
    requires AllDigits(d)
    ensures NoSeparator((if open then "{" else "") + d + (if close then "}" else ""))
  {
    var o := if open then "{" else "";
    var c := if close then "}" else "";
    var tok := o + d + c;
    forall i | 0 <= i < |tok| ensures !IsSeparator(tok[i]) {
      if i >= |o| && i < |o| + |d| {
        assert tok[i] == d[i - |o|];
      }
    }
  }

  /** A plain path: the last hop is the origin. */
  lemma OriginOfPlainPath()
    ensures OriginAsn("3 2 1") == Some(1)
  {
    var p := "3 2" + [' '] + "" + Decimal(1) + "";
    assert Decimal(1) == "1";
    assert p == "3 2 1";
    OriginOfLastHop("3 2", ' ', 1, false, false);
    assert OriginAsn(p) == Some(1);
  }

  /** Two hops: the second is the origin. */
  lemma OriginOfTwoHopPath()
    ensures OriginAsn("5 9") == Some(9)
  {
    var p := "5" + [' '] + "" + Decimal(9) + "";
    assert Decimal(9) == "9";
    assert p == "5 9";
    OriginOfLastHop("5", ' ', 9, false, false);
    assert OriginAsn(p) == Some(9);
  }

  /** An AS-SET at the end of the path: its last member is taken, the brace stripped. */
  lemma OriginOfAsSetTail()
    ensures OriginAsn("64500 {65001,65002}") == Some(65002)
  {
    assert Decimal(6) == "6";
    assert Decimal(65) == "65";
    assert Decimal(650) == "650";
    assert Decimal(6500) == "6500";
    assert Decimal(65002) == "65002";
    var p := "64500 {65001" + [','] + "" + Decimal(65002) + "}";
    assert p == "64500 {65001,65002}";
    OriginOfLastHop("64500 {65001", ',', 65002, false, true);
    assert OriginAsn(p) == Some(65002);
  }

  /** A path with a trailing separator has an empty last piece, which int() rejects. */
  lemma NoOriginAfterTrailingSeparator(path: string, sep: char)
    requires IsSeparator(sep)
    ensures OriginAsn(path + [sep]) == None
  {
    LastPieceAfterSeparator(path, sep, "");
    assert path + [sep] + "" == path + [sep];
  }
}
