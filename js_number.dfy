/**
 * JavaScript's `parseInt(string)` with no radix argument, as the API gateway applies it to
 * route and query parameters and to the count the database returns. NaN is `None`.
 */
module JsNumber {
  import opened Wrappers
  import opened Text

  /** The characters `parseInt` skips before the number: JavaScript's white space and line terminators. */
  predicate IsJsSpace(c: char) {
    c == '\t' || c == '\n' || c == '\U{000B}' || c == '\U{000C}' || c == '\r' || c == ' '
    || c == '\U{00A0}' || c == '\U{1680}' || ('\U{2000}' <= c <= '\U{200A}') || c == '\U{2028}' || c == '\U{2029}'
    || c == '\U{202F}' || c == '\U{205F}' || c == '\U{3000}' || c == '\U{FEFF}'
  }

  /** The number of leading white-space characters of `s`. */
  function LeadingSpace(s: string): (n: nat)
    ensures n <= |s| && (forall i :: 0 <= i < n ==> IsJsSpace(s[i])) && (n == |s| || !IsJsSpace(s[n]))
  {
    if s != [] && IsJsSpace(s[0]) then 1 + LeadingSpace(s[1..]) else 0
  }

  /** A character's value as a digit in bases up to 36; 36 for a character that is no digit. */
  function DigitVal(c: char): (v: nat)
    ensures v <= 36 && (v < 10 <==> IsDigit(c))
  {
    if '0' <= c <= '9' then c as int - '0' as int
    else if 'a' <= c <= 'z' then c as int - 'a' as int + 10
    else if 'A' <= c <= 'Z' then c as int - 'A' as int + 10
    else 36
  }

  /** The length of the run of digits in base `radix` at the start of `s`. */
  function DigitRun(s: string, radix: nat): (n: nat)
    ensures n <= |s| && (forall i :: 0 <= i < n ==> DigitVal(s[i]) < radix) && (n == |s| || DigitVal(s[n]) >= radix)
  {
    if s != [] && DigitVal(s[0]) < radix then 1 + DigitRun(s[1..], radix) else 0
  }

  /** The value of a string of digits in base `radix`, most significant first. */
  function RadixValue(d: string, radix: nat): nat {
    if d == [] then 0 else RadixValue(d[..|d| - 1], radix) * radix + DigitVal(d[|d| - 1])
  }

  /** The unsigned part: a `0x` or `0X` prefix selects base 16, then the longest run of digits is read. */
  function Unsigned(u: string): Option<nat> {
    var hex := |u| >= 2 && u[0] == '0' && (u[1] == 'x' || u[1] == 'X');
    var radix := if hex then 16 else 10;
    var w := if hex then u[2..] else u;
    var n := DigitRun(w, radix);
    if n == 0 then None else Some(RadixValue(w[..n], radix))
  }

  /** An optional sign, then the unsigned part. */
  function Signed(t: string): Option<int> {
    if t != [] && t[0] == '-' then
      match Unsigned(t[1..]) case None => None case Some(v) => Some(-(v as int))
    else if t != [] && t[0] == '+' then Unsigned(t[1..])
    else Unsigned(t)
  }

  /**
   * `parseInt(s)`: leading white space is skipped, then an optional sign, then the digits;
   * anything after the longest run of digits is ignored. With no digit there the result is NaN.
   */
  function JsParseInt(s: string): Option<int> {
    Signed(s[LeadingSpace(s)..])
  }

  lemma {:induction false} DecimalValue(d: string)
    requires AllDigits(d)
    ensures RadixValue(d, 10) == DigitsValue(d)
  {
    if d != [] {
      DecimalValue(d[..|d| - 1]);
    }
  }

  /**
   * `parseInt` reads back JavaScript's rendering of any integer, and ignores what follows
   * it as long as that does not continue the number (a `0` followed by `x` would start a
   * hexadecimal literal).
   */
  lemma UnsignedDecimal(m: nat, rest: string)
    requires rest == [] || (!IsDigit(rest[0]) && (m == 0 ==> rest[0] != 'x' && rest[0] != 'X'))
    ensures Unsigned(NatDec(m) + rest) == Some(m)
  {
    var d := NatDec(m);
    var u := d + rest;
    assert |u| >= 2 && u[0] == '0' && (u[1] == 'x' || u[1] == 'X') ==> m == 0 && |d| == 1;
    assert DigitRun(u, 10) == |d| by {
      assert forall i :: 0 <= i < |d| ==> u[i] == d[i];
      assert |d| == |u| || u[|d|] == rest[0];
    }
    assert u[..|d|] == d;
    DecimalValue(d);
    Text.DecRoundTrip(m);
  }

  lemma DecRoundTrip(n: int, rest: string)
    requires rest == [] || (!IsDigit(rest[0]) && (n == 0 ==> rest[0] != 'x' && rest[0] != 'X'))
    ensures JsParseInt(Dec(n) + rest) == Some(n)
  {
    if n < 0 {
      NegativeText(n, rest);
      NegativeRoundTrip(-n, rest, Dec(n) + rest);
    } else {
      NonNegativeRoundTrip(n, rest);
    }
  }

  lemma NonNegativeRoundTrip(n: int, rest: string)
    requires n >= 0 && (rest == [] || (!IsDigit(rest[0]) && (n == 0 ==> rest[0] != 'x' && rest[0] != 'X')))
    ensures JsParseInt(Dec(n) + rest) == Some(n)
  {
    UnsignedDecimal(n, rest);
    var s := NatDec(n) + rest;
    assert Dec(n) + rest == s;
    assert IsDigit(s[0]) && Signed(s) == Unsigned(s);
    NoLeadingSpace(s);
  }

  lemma NegativeRoundTrip(m: nat, rest: string, s: string)
    requires m > 0 && (rest == [] || !IsDigit(rest[0]))
    requires s == "-" + (NatDec(m) + rest)
    ensures JsParseInt(s) == Some(-(m as int))
  {
    NegativeDecimal(m, rest);
    NoLeadingSpace(s);
  }

  lemma NegativeDecimal(m: nat, rest: string)
    requires m > 0 && (rest == [] || !IsDigit(rest[0]))
    ensures Signed("-" + (NatDec(m) + rest)) == Some(-(m as int))
  {
    UnsignedDecimal(m, rest);
    SignedNegative(NatDec(m) + rest, m);
  }

  lemma NegativeText(n: int, rest: string)
    requires n < 0
    ensures Dec(n) + rest == "-" + (NatDec(-n) + rest)
  {
    AppendAssoc("-", NatDec(-n), rest);
  }

  lemma AppendAssoc(a: string, b: string, c: string)
    ensures (a + b) + c == a + (b + c)
  {
  }

  lemma SignedNegative(u: string, v: nat)
    requires Unsigned(u) == Some(v)
    ensures Signed("-" + u) == Some(-(v as int))
  {
    assert ("-" + u)[1..] == u;
  }

  lemma NoLeadingSpace(s: string)
    requires s != [] && (s[0] == '-' || IsDigit(s[0]))
    ensures JsParseInt(s) == Signed(s)
  {
    assert LeadingSpace(s) == 0;
    assert s[0..] == s;
  }

  /** White space in front of a number changes nothing. */
  lemma LeadingSpaceIgnored(ws: string, s: string)
    requires forall i :: 0 <= i < |ws| ==> IsJsSpace(ws[i])
    requires s == [] || !IsJsSpace(s[0])
    ensures JsParseInt(ws + s) == JsParseInt(s)
  {
    LeadingSpaceLength(ws, s);
    assert (ws + s)[|ws|..] == s && s[0..] == s;
  }

  lemma {:induction false} LeadingSpaceLength(ws: string, s: string)
    requires forall i :: 0 <= i < |ws| ==> IsJsSpace(ws[i])
    requires s == [] || !IsJsSpace(s[0])
    ensures LeadingSpace(ws + s) == |ws| && LeadingSpace(s) == 0
  {
    if ws != [] {
      assert (ws + s)[1..] == ws[1..] + s;
      LeadingSpaceLength(ws[1..], s);
    } else {
      assert ws + s == s;
    }
  }
}
