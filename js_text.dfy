/** The two pieces of JavaScript string behaviour the screens rely on:
    `String.prototype.trim` and the decimal rendering of an integer in a
    template literal (`${n}`). */
module JsText {

  /** The ECMAScript WhiteSpace and LineTerminator code points: exactly what
      `trim` strips from both ends. */
  predicate IsJsSpace(c: char) {
    || c == '\t' || c == '\n' || c == '\U{000B}' || c == '\U{000C}' || c == '\r' || c == ' '
    || c == '\U{00A0}' || c == '\U{1680}' || ('\U{2000}' <= c <= '\U{200A}')
    || c == '\U{2028}' || c == '\U{2029}' || c == '\U{202F}' || c == '\U{205F}'
    || c == '\U{3000}' || c == '\U{FEFF}'
  }

  predicate AllSpace(s: string) {
    forall i :: 0 <= i < |s| ==> IsJsSpace(s[i])
  }

  /** Drops leading white space; what is left is a suffix of `s`. */
  function TrimStart(s: string): (r: string)
    ensures |r| <= |s| && r == s[|s| - |r|..]
    ensures r == [] || !IsJsSpace(r[0])
    ensures AllSpace(s[..|s| - |r|])
  {
    if s != [] && IsJsSpace(s[0]) then
      var p := s[1..];
      var r := TrimStart(p);
      assert p[|p| - |r|..] == s[|s| - |r|..];
      assert s[..|s| - |r|] == [s[0]] + p[..|p| - |r|];
      r
    else s
  }

  /** Drops trailing white space; what is left is a prefix of `s`. */
  function TrimEnd(s: string): (r: string)
    ensures |r| <= |s| && r == s[..|r|]
    ensures r == [] || !IsJsSpace(r[|r| - 1])
    ensures AllSpace(s[|r|..])
  {
    if s != [] && IsJsSpace(s[|s| - 1]) then
      var p := s[..|s| - 1];
      var r := TrimEnd(p);
      assert p[..|r|] == s[..|r|];
      assert s[|r|..] == p[|r|..] + [s[|s| - 1]];
      r
    else s
  }

  /** `s.trim()`. */
  function Trim(s: string): string {
    TrimEnd(TrimStart(s))
  }

  /** Where the trimmed text starts in `s`. */
  function TrimOffset(s: string): nat {
    |s| - |TrimStart(s)|
  }

  /** A trimmed string is an infix of the input, starting at `TrimOffset`,
      with white space only around it, and neither starts nor ends with
      white space. */
  lemma TrimShape(s: string)
    ensures var t, a := Trim(s), TrimOffset(s);
      && (t == [] || (!IsJsSpace(t[0]) && !IsJsSpace(t[|t| - 1])))
      && a + |t| <= |s| && t == s[a..a + |t|]
      && AllSpace(s[..a]) && AllSpace(s[a + |t|..])
  {
    TrimVisibleEnds(s);
    TrimInfix(s);
    TrimSurroundings(s);
  }

  lemma TrimVisibleEnds(s: string)
    ensures var t := Trim(s); t == [] || (!IsJsSpace(t[0]) && !IsJsSpace(t[|t| - 1]))
  {
    var u := TrimStart(s);
    var t := TrimEnd(u);
    if t != [] {
      assert t[0] == u[0];
    }
  }

  lemma TrimInfix(s: string)
    ensures var t, a := Trim(s), TrimOffset(s); a + |t| <= |s| && t == s[a..a + |t|]
  {
    var u := TrimStart(s);
    var t := TrimEnd(u);
    var a := |s| - |u|;
    assert u == s[a..];
    assert u[..|t|] == s[a..a + |t|];
  }

  lemma TrimSurroundings(s: string)
    ensures var t, a := Trim(s), TrimOffset(s); a + |t| <= |s| && AllSpace(s[..a]) && AllSpace(s[a + |t|..])
  {
    var u := TrimStart(s);
    var t := TrimEnd(u);
    var a := |s| - |u|;
    assert s[a + |t|..] == u[|t|..];
  }

  /** `s.trim()` is empty exactly when `s` is white space only. */
  lemma TrimEmptyIffAllSpace(s: string)
    ensures Trim(s) == [] <==> AllSpace(s)
  {
    var u := TrimStart(s);
    if u != [] {
      assert u[0] == s[|s| - |u|];
      assert TrimEnd(u) != [] by { assert u[0..] == u; }
    }
    if Trim(s) == [] {
      assert s[..|s| - |u|] == s;
    }
  }

  /** Trimming twice is trimming once. */
  lemma TrimIdempotent(s: string)
    ensures Trim(Trim(s)) == Trim(s)
  {
    TrimShape(s);
    var t := Trim(s);
    if t != [] {
      assert TrimStart(t) == t;
      assert TrimEnd(t) == t;
    }
  }

  /** The decimal digit for `d`. */
  function DigitChar(d: nat): (c: char)
    requires d < 10
    ensures '0' <= c <= '9'
  {
    "0123456789"[d]
  }

  function DigitValue(c: char): nat
    requires '0' <= c <= '9'
  {
    c as nat - '0' as nat
  }

  predicate IsDigit(c: char) { '0' <= c <= '9' }

  predicate AllDigits(s: string) {
    forall i :: 0 <= i < |s| ==> IsDigit(s[i])
  }

  /** The template-literal rendering of a non-negative integer: decimal digits,
      no leading zero except for 0 itself. */
  function NatToString(n: nat): (s: string)
    ensures s != [] && AllDigits(s)
    ensures |s| > 1 ==> s[0] != '0'
    decreases n
  {
    if n < 10 then [DigitChar(n)] else NatToString(n / 10) + [DigitChar(n % 10)]
  }

  /** The template-literal rendering of any integer (a leading '-' when negative). */
  function IntToString(i: int): (s: string)
    ensures s != []
  {
    if i < 0 then "-" + NatToString(-i) else NatToString(i)
  }

  /** Only zero renders as "0". */
  lemma IntToStringZero(i: int)
    ensures IntToString(i) == "0" <==> i == 0
  {
    if i > 0 && IntToString(i) == "0" {
      NatToStringInjective(i, 0);
    }
  }

  /** Reads a string of decimal digits back as a number. */
  function ParseDigits(s: string): nat
    requires AllDigits(s)
  {
    if s == [] then 0 else ParseDigits(s[..|s| - 1]) * 10 + DigitValue(s[|s| - 1])
  }

  lemma DigitRoundTrip(d: nat)
    requires d < 10
    ensures DigitValue(DigitChar(d)) == d
  {
  }

  /** Rendering then reading gives the number back. */
  lemma {:induction false} NatRoundTrip(n: nat)
    ensures ParseDigits(NatToString(n)) == n
    decreases n
  {
    var s := NatToString(n);
    if n < 10 {
      DigitRoundTrip(n);
      assert s[..|s| - 1] == [];
    } else {
      NatRoundTrip(n / 10);
      DigitRoundTrip(n % 10);
      assert s[..|s| - 1] == NatToString(n / 10);
    }
  }

  /** Different numbers render differently. */
  lemma NatToStringInjective(m: nat, n: nat)
    requires NatToString(m) == NatToString(n)
    ensures m == n
  {
    NatRoundTrip(m);
    NatRoundTrip(n);
  }
}
