/**
 * The two bits of Python text handling the core relies on: `strip()` and the
 * decimal rendering of an integer in an f-string.
 */
module PyText {

  /** Whitespace as `bytes.strip()` sees it: the six ASCII whitespace bytes. */
  predicate IsByteSpace(c: char) {
    c == ' ' || c == '\t' || c == '\n' || c == '\r' || c == '\U{0B}' || c == '\U{0C}'
  }

  /** Whitespace as `str.strip()` sees it (`str.isspace`). */
  predicate IsStrSpace(c: char) {
    IsByteSpace(c) || c == '\U{1C}' || c == '\U{1D}' || c == '\U{1E}' || c == '\U{1F}' ||
    c == '\U{85}' || c == '\U{A0}' || c == '\U{1680}' || ('\U{2000}' <= c <= '\U{200A}') ||
    c == '\U{2028}' || c == '\U{2029}' || c == '\U{202F}' || c == '\U{205F}' || c == '\U{3000}'
  }

  datatype Alphabet = Bytes | Str

  predicate IsSpace(a: Alphabet, c: char) {
    match a
    case Bytes => IsByteSpace(c)
    case Str => IsStrSpace(c)
  }

  /** Drops leading whitespace: the result is a suffix of `s` that starts with a non-space, and all that was cut is space. */
  function TrimStart(a: Alphabet, s: string): (r: string)
    ensures |r| <= |s| && r == s[|s| - |r|..]
    ensures r != "" ==> !IsSpace(a, r[0])
    ensures forall i :: 0 <= i < |s| - |r| ==> IsSpace(a, s[i])
    decreases |s|
  {
    if s != "" && IsSpace(a, s[0]) then TrimStart(a, s[1..]) else s
  }

  /** Drops trailing whitespace: the result is a prefix of `s` that ends with a non-space, and all that was cut is space. */
  function TrimEnd(a: Alphabet, s: string): (r: string)
    ensures |r| <= |s| && r == s[..|r|]
    ensures r != "" ==> !IsSpace(a, r[|r| - 1])
    ensures forall i :: |r| <= i < |s| ==> IsSpace(a, s[i])
    decreases |s|
  {
    if s != "" && IsSpace(a, s[|s| - 1]) then TrimEnd(a, s[..|s| - 1]) else s
  }

  /**
   * `s.strip()`: the longest slice of `s` that neither starts nor ends with
   * whitespace, with only whitespace cut on either side.
   */
  function Strip(a: Alphabet, s: string): (r: string)
    ensures exists i, j :: 0 <= i <= j <= |s| && r == s[i..j] &&
                           (forall k :: 0 <= k < i ==> IsSpace(a, s[k])) &&
                           (forall k :: j <= k < |s| ==> IsSpace(a, s[k]))
    ensures r != "" ==> !IsSpace(a, r[0]) && !IsSpace(a, r[|r| - 1])
  {
    var t := TrimStart(a, s);
    var r := TrimEnd(a, t);
    var i := |s| - |t|;
    assert r == s[i..i + |r|];
    r
  }

  // ---------------------------------------------------------------------
  // Decimal numerals
  // ---------------------------------------------------------------------

  predicate IsDigit(c: char) {
    '0' <= c <= '9'
  }

  function Digit(d: nat): (c: char)
    requires d < 10
    ensures IsDigit(c)
  {
    "0123456789"[d]
  }

  function DigitValue(c: char): (d: nat)
    requires IsDigit(c)
    ensures d < 10
  {
    (c as int - '0' as int) as nat
  }

  /** The decimal numeral of a natural number: digits only, and no leading zero unless it is `0` itself. */
  function NatToString(n: nat): (s: string)
    ensures s != "" && (forall i :: 0 <= i < |s| ==> IsDigit(s[i]))
    ensures |s| > 1 ==> s[0] != '0'
    decreases n
  {
    if n < 10 then [Digit(n)] else NatToString(n / 10) + [Digit(n % 10)]
  }

  /** Reads a non-empty string of digits as a number. */
  function ParseNat(s: string): nat
    requires s != "" && forall i :: 0 <= i < |s| ==> IsDigit(s[i])
    decreases |s|
  {
    if |s| == 1 then DigitValue(s[0])
    else ParseNat(s[..|s| - 1]) * 10 + DigitValue(s[|s| - 1])
  }

  /** Reading the numeral back gives the number. */
  lemma {:induction false} ParseNatToString(n: nat)
    ensures ParseNat(NatToString(n)) == n
    decreases n
  {
    if n >= 10 {
      var s := NatToString(n);
      assert s[..|s| - 1] == NatToString(n / 10);
      ParseNatToString(n / 10);
    }
  }

  /** `str(n)` for a Python int: a minus sign before the magnitude's digits when negative. */
  function IntToString(n: int): (s: string)
    ensures n >= 0 ==> s == NatToString(n)
    ensures n < 0 ==> s == "-" + NatToString(-n)
  {
    if n >= 0 then NatToString(n) else "-" + NatToString(-n)
  }

  /** A numeral as `str` writes an int: digits, possibly after one minus sign. */
  predicate IsNumeral(s: string) {
    (s != "" && forall i :: 0 <= i < |s| ==> IsDigit(s[i])) ||
    (|s| > 1 && s[0] == '-' && forall i :: 1 <= i < |s| ==> IsDigit(s[i]))
  }

  /** `int(s)` on a numeral. */
  function ParseInt(s: string): int
    requires IsNumeral(s)
  {
    if s[0] == '-' then -(ParseNat(s[1..]) as int) else ParseNat(s)
  }

  /** Reading an int's numeral back gives the int. */
  lemma {:induction false} ParseIntToString(n: int)
    ensures IsNumeral(IntToString(n)) && ParseInt(IntToString(n)) == n
  {
    var s := IntToString(n);
    if n >= 0 {
      ParseNatToString(n);
    } else {
      assert s[1..] == NatToString(-n);
      ParseNatToString(-n);
    }
  }

  /** Distinct numbers have distinct numerals. */
  lemma {:induction false} IntToStringInjective(m: int, n: int)
    requires IntToString(m) == IntToString(n)
    ensures m == n
  {
    ParseIntToString(m);
    ParseIntToString(n);
  }
}
