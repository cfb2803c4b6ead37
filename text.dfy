/** The three pieces of Python's str behaviour the core relies on:
    str.strip() with no argument, str.lower(), and str(int). */
module Text {

  /** Python's str.isspace(): the characters whose bidirectional class is
      WS, B or S, or whose category is Zs. */
  predicate IsSpace(c: char) {
    ('\t' <= c <= '\r') || ('\U{1C}' <= c <= '\U{1F}') || c == ' ' ||
    c == '\U{85}' || c == '\U{A0}' || c == '\U{1680}' ||
    ('\U{2000}' <= c <= '\U{200A}') || c == '\U{2028}' || c == '\U{2029}' ||
    c == '\U{202F}' || c == '\U{205F}' || c == '\U{3000}'
  }

  predicate AllSpace(s: string) {
    forall k :: 0 <= k < |s| ==> IsSpace(s[k])
  }

  /** Drops leading whitespace (Python's str.lstrip()): what is left does not
      start with whitespace; StripStartLength shows it is a suffix of the input
      whose removed prefix is all whitespace. */
  function StripStart(s: string): (r: string)
    ensures |r| <= |s|
    ensures r == [] || !IsSpace(r[0])
  {
    if |s| > 0 && IsSpace(s[0]) then StripStart(s[1..]) else s
  }

  /** Drops trailing whitespace (Python's str.rstrip()): what is left is a
      prefix of the input that does not end with whitespace. */
  function StripEnd(s: string): (r: string)
    ensures |r| <= |s| && r == s[..|r|]
    ensures r == [] || !IsSpace(r[|r| - 1])
  {
    if |s| > 0 && IsSpace(s[|s| - 1]) then StripEnd(s[..|s| - 1]) else s
  }

  /** Python's str.strip(): whitespace removed from both ends, so the result
      neither starts nor ends with whitespace. */
  function Strip(s: string): (r: string)
    ensures |r| <= |s|
    ensures r == [] || (!IsSpace(r[0]) && !IsSpace(r[|r| - 1]))
  {
    StripEnd(StripStart(s))
  }

  /** Case folding of one character; only 'A'..'Z' are folded (see README). */
  function LowerChar(c: char): char {
    if 'A' <= c <= 'Z' then (c as int + 32) as char else c
  }

  /** Python's str.lower(), restricted to ASCII letters: each upper-case
      letter becomes its own lower-case letter, and every other character is
      kept in place. */
  function Lower(s: string): (r: string)
    ensures |r| == |s|
    ensures forall k :: 0 <= k < |s| && 'A' <= s[k] <= 'Z' ==>
      r[k] == "abcdefghijklmnopqrstuvwxyz"[s[k] as int - 'A' as int]
    ensures forall k :: 0 <= k < |r| ==> !('A' <= r[k] <= 'Z')
    ensures forall k :: 0 <= k < |s| && !('A' <= s[k] <= 'Z') ==> r[k] == s[k]
  {
    seq(|s|, k requires 0 <= k < |s| => LowerChar(s[k]))
  }

  /** Folding twice is folding once. */
  lemma LowerIdempotent(s: string)
    ensures Lower(Lower(s)) == Lower(s)
  {
  }

  predicate IsDigit(c: char) {
    '0' <= c <= '9'
  }

  predicate IsLetter(c: char) {
    ('a' <= c <= 'z') || ('A' <= c <= 'Z')
  }

  function DigitChar(d: nat): char
    requires d < 10
  {
    ('0' as int + d) as char
  }

  /** The decimal numeral of a natural number, most significant digit first. */
  function NatToDecimal(n: nat): (r: string)
    ensures |r| >= 1
    ensures forall k :: 0 <= k < |r| ==> IsDigit(r[k])
    ensures |r| > 1 ==> r[0] != '0'
  {
    if n < 10 then [DigitChar(n)] else NatToDecimal(n / 10) + [DigitChar(n % 10)]
  }

  /** Python's str(i) for an int: a minus sign, then the numeral of |i|. */
  function IntToDecimal(i: int): (r: string)
    ensures |r| >= 1 && IsDigit(r[|r| - 1])
    ensures (i < 0) == (r[0] == '-')
  {
    if i < 0 then "-" + NatToDecimal(-i) else NatToDecimal(i)
  }

  /** The value a string of digits denotes; inverse of NatToDecimal. */
  function DecimalValue(s: string): nat
    requires forall k :: 0 <= k < |s| ==> IsDigit(s[k])
  {
    if s == [] then 0
    else
      assert IsDigit(s[|s| - 1]);
      DecimalValue(s[..|s| - 1]) * 10 + (s[|s| - 1] as int - '0' as int)
  }

  lemma {:induction false} DecimalRoundTrip(n: nat)
    ensures DecimalValue(NatToDecimal(n)) == n
  {
    if n >= 10 {
      var r := NatToDecimal(n);
      assert r[..|r| - 1] == NatToDecimal(n / 10);
      DecimalRoundTrip(n / 10);
    }
  }

  /** The digits of str(i) after the sign are the numeral of |i|. */
  lemma IntToDecimalDigits(i: int)
    ensures i < 0 ==> IntToDecimal(i)[1..] == NatToDecimal(-i)
    ensures i >= 0 ==> IntToDecimal(i) == NatToDecimal(i)
  {
  }

  lemma NatToDecimalInjective(m: nat, n: nat)
    requires NatToDecimal(m) == NatToDecimal(n)
    ensures m == n
  {
    DecimalRoundTrip(m);
    DecimalRoundTrip(n);
  }

  /** Distinct integers have distinct decimal strings. */
  lemma IntToDecimalInjective(i: int, j: int)
    requires IntToDecimal(i) == IntToDecimal(j)
    ensures i == j
  {
    IntToDecimalDigits(i);
    IntToDecimalDigits(j);
    if i < 0 {
      NatToDecimalInjective(-i, -j);
    } else {
      NatToDecimalInjective(i, j);
    }
  }

  /** Stripping removes exactly a whitespace prefix and suffix and leaves
      neither end on a whitespace character. */
  lemma {:induction false} StripShape(s: string)
    ensures var r := Strip(s);
      exists i, j :: 0 <= i <= j <= |s| && r == s[i..j] && AllSpace(s[..i]) && AllSpace(s[j..])
    ensures var r := Strip(s); r == [] || (!IsSpace(r[0]) && !IsSpace(r[|r| - 1]))
  {
    var i := StripStartLength(s);
    var t := s[i..];
    var j := StripEndLength(t);
    assert Strip(s) == s[i..i + j];
    assert s[i + j..] == t[j..];
    assert AllSpace(s[..i]);
  }

  /** How many characters StripStart keeps, with what it removed. */
  lemma {:induction false} StripStartLength(s: string) returns (i: nat)
    ensures i <= |s| && StripStart(s) == s[i..] && AllSpace(s[..i])
    ensures StripStart(s) == [] || !IsSpace(StripStart(s)[0])
  {
    if |s| > 0 && IsSpace(s[0]) {
      var i' := StripStartLength(s[1..]);
      i := i' + 1;
      assert s[1..][i'..] == s[i..];
      assert forall k :: 0 < k < i ==> s[..i][k] == s[1..][..i'][k - 1];
    } else {
      i := 0;
    }
  }

  /** Where StripEnd cuts, with what it removed. */
  lemma {:induction false} StripEndLength(s: string) returns (j: nat)
    ensures j <= |s| && StripEnd(s) == s[..j] && AllSpace(s[j..])
  {
    j := |StripEnd(s)|;
    if |s| > 0 && IsSpace(s[|s| - 1]) {
      var j' := StripEndLength(s[..|s| - 1]);
      assert s[j..] == s[..|s| - 1][j..] + [s[|s| - 1]];
    }
  }

  lemma {:induction false} StripStartAllSpace(s: string)
    requires AllSpace(s)
    ensures StripStart(s) == []
  {
    if |s| > 0 {
      StripStartAllSpace(s[1..]);
    }
  }

  /** A whitespace prefix does not change what StripStart returns. */
  lemma {:induction false} StripStartSpacePrefix(w: string, s: string)
    requires AllSpace(w)
    ensures StripStart(w + s) == StripStart(s)
  {
    if |w| > 0 {
      assert IsSpace(w[0]) && (w + s)[0] == w[0];
      assert (w + s)[1..] == w[1..] + s;
      StripStartSpacePrefix(w[1..], s);
    } else {
      assert w + s == s;
    }
  }

  /** Once a non-space character is reached, StripStart keeps the rest. */
  lemma {:induction false} StripStartAppend(s: string, t: string)
    requires !AllSpace(s)
    ensures StripStart(s + t) == StripStart(s) + t
  {
    if IsSpace(s[0]) {
      assert (s + t)[1..] == s[1..] + t;
      StripStartAppend(s[1..], t);
    }
  }

  /** A whitespace suffix does not change what StripEnd returns. */
  lemma {:induction false} StripEndSpaceSuffix(s: string, w: string)
    requires AllSpace(w)
    ensures StripEnd(s + w) == StripEnd(s)
  {
    if |w| > 0 {
      assert IsSpace(w[|w| - 1]) && (s + w)[|s + w| - 1] == w[|w| - 1];
      assert (s + w)[..|s + w| - 1] == s + w[..|w| - 1];
      StripEndSpaceSuffix(s, w[..|w| - 1]);
    } else {
      assert s + w == s;
    }
  }

  /** Whitespace around a string does not change its stripped form. */
  lemma StripIgnoresPadding(w1: string, s: string, w2: string)
    requires AllSpace(w1) && AllSpace(w2)
    ensures Strip(w1 + s + w2) == Strip(s)
  {
    assert w1 + s + w2 == w1 + (s + w2);
    StripStartSpacePrefix(w1, s + w2);
    if AllSpace(s) {
      StripStartAllSpace(s);
      StripStartAllSpace(s + w2);
    } else {
      StripStartAppend(s, w2);
      StripEndSpaceSuffix(StripStart(s), w2);
    }
  }

  lemma {:induction false} LowerStripStart(s: string)
    ensures Lower(StripStart(s)) == StripStart(Lower(s))
  {
    if |s| > 0 && IsSpace(s[0]) {
      assert Lower(s)[1..] == Lower(s[1..]);
      LowerStripStart(s[1..]);
    }
  }

  lemma {:induction false} LowerStripEnd(s: string)
    ensures Lower(StripEnd(s)) == StripEnd(Lower(s))
  {
    if |s| > 0 && IsSpace(s[|s| - 1]) {
      assert Lower(s)[..|s| - 1] == Lower(s[..|s| - 1]);
      LowerStripEnd(s[..|s| - 1]);
    }
  }

  /** Stripping then folding case gives what folding then stripping gives. */
  lemma LowerStripCommute(s: string)
    ensures Lower(Strip(s)) == Strip(Lower(s))
  {
    LowerStripEnd(StripStart(s));
    LowerStripStart(s);
  }
}
