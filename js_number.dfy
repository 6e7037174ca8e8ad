/**
 * JavaScript's `parseInt(s, 10)` (section 19.2.5 of ECMA-262, the ECMAScript
 * Language Specification) over Dafny strings: strip leading white space and
 * line terminators, take an optional `+` or `-`, then the longest run of
 * decimal digits; no digits at all gives NaN.
 */
module JsNumber {

  /** A number as `parseInt` can produce it: an integer, or NaN. */
  datatype Num = Int(value: int) | NaN

  /** The WhiteSpace and LineTerminator code points that `parseInt` skips. */
  predicate IsWhitespace(c: char) {
    var n := c as int;
    n == 0x09 || n == 0x0A || n == 0x0B || n == 0x0C || n == 0x0D || n == 0x20 ||
    n == 0xA0 || n == 0x1680 || (0x2000 <= n <= 0x200A) || n == 0x2028 || n == 0x2029 ||
    n == 0x202F || n == 0x205F || n == 0x3000 || n == 0xFEFF
  }

  predicate IsDigit(c: char) {
    '0' <= c <= '9'
  }

  predicate AllWhitespace(s: string) {
    forall i :: 0 <= i < |s| ==> IsWhitespace(s[i])
  }

  predicate AllDigits(s: string) {
    forall i :: 0 <= i < |s| ==> IsDigit(s[i])
  }

  predicate IsSignChar(c: char) {
    c == '+' || c == '-'
  }

  /** The optional sign in front of the digits. */
  datatype Sign = NoSign | Plus | Minus {
    function Text(): string {
      match this
      case NoSign => ""
      case Plus => "+"
      case Minus => "-"
    }

    function Apply(v: nat): int {
      if this == Minus then -(v as int) else v
    }
  }

  /** `s` with its leading white space removed: the longest suffix not starting with white space. */
  function TrimStart(s: string): (t: string)
    ensures |t| <= |s| && t == s[|s| - |t|..]
    ensures AllWhitespace(s[..|s| - |t|])
    ensures t == [] || !IsWhitespace(t[0])
  {
    if s != [] && IsWhitespace(s[0]) then
      var t := TrimStart(s[1..]);
      assert s[..|s| - |t|] == [s[0]] + s[1..][..|s| - 1 - |t|];
      t
    else
      s
  }

  /** The longest prefix of `s` made of decimal digits. */
  function LeadingDigits(s: string): (d: string)
    ensures |d| <= |s| && d == s[..|d|]
    ensures AllDigits(d)
    ensures |d| == |s| || !IsDigit(s[|d|])
  {
    if s != [] && IsDigit(s[0]) then [s[0]] + LeadingDigits(s[1..]) else []
  }

  function DigitValue(c: char): (k: nat)
    requires IsDigit(c)
    ensures k < 10
  {
    c as int - '0' as int
  }

  /** The value of a string of decimal digits, most significant first. */
  function DigitsValue(d: string): nat
    requires AllDigits(d)
  {
    if d == [] then 0 else 10 * DigitsValue(d[..|d| - 1]) + DigitValue(d[|d| - 1])
  }

  /** Reads the longest run of leading digits of `u`; NaN when there is none. */
  function ParseDigits(u: string): Num {
    var z := LeadingDigits(u);
    if z == [] then NaN else Int(DigitsValue(z))
  }

  function Negate(r: Num): Num {
    match r
    case Int(v) => Int(-v)
    case NaN => NaN
  }

  /** Reads an optional sign, then digits. */
  function ParseSigned(t: string): Num {
    if t != [] && t[0] == '-' then Negate(ParseDigits(t[1..]))
    else if t != [] && t[0] == '+' then ParseDigits(t[1..])
    else ParseDigits(t)
  }

  /** `parseInt(s, 10)`. */
  function ParseInt(s: string): Num {
    ParseSigned(TrimStart(s))
  }

  /** `s` begins, after white space and at most one sign, with a decimal digit. */
  ghost predicate HasNumericPrefix(s: string) {
    exists i :: 0 <= i < |s| && AllWhitespace(s[..i]) &&
      (IsDigit(s[i]) || (IsSignChar(s[i]) && i + 1 < |s| && IsDigit(s[i + 1])))
  }

  /** Decimal rendering of a number, as JavaScript's `String(n)` gives it for an integer. */
  function DigitChar(k: nat): (c: char)
    requires k < 10
    ensures IsDigit(c) && DigitValue(c) == k
  {
    ('0' as int + k) as char
  }

  function Decimal(n: nat): (d: string)
    ensures d != [] && AllDigits(d)
    ensures d[0] != '0' || n == 0
  {
    if n < 10 then [DigitChar(n)] else Decimal(n / 10) + [DigitChar(n % 10)]
  }

  function Show(n: int): string {
    if n < 0 then "-" + Decimal(-n) else Decimal(n)
  }

  lemma {:induction false} TrimStartSkips(ws: string, t: string)
    requires AllWhitespace(ws)
    requires t == [] || !IsWhitespace(t[0])
    ensures TrimStart(ws + t) == t
  {
    if ws != [] {
      assert (ws + t)[1..] == ws[1..] + t;
      TrimStartSkips(ws[1..], t);
    }
  }

  lemma {:induction false} LeadingDigitsStops(d: string, rest: string)
    requires AllDigits(d)
    requires rest == [] || !IsDigit(rest[0])
    ensures LeadingDigits(d + rest) == d
  {
    if d != [] {
      assert (d + rest)[1..] == d[1..] + rest;
      LeadingDigitsStops(d[1..], rest);
    }
  }

  lemma ParseDigitsOfParts(d: string, rest: string)
    requires d != [] && AllDigits(d)
    requires rest == [] || !IsDigit(rest[0])
    ensures ParseDigits(d + rest) == Int(DigitsValue(d))
  {
    LeadingDigitsStops(d, rest);
  }

  lemma ParseSignedUnsigned(u: string)
    requires u != [] && IsDigit(u[0])
    ensures ParseSigned(u) == ParseDigits(u)
  {
  }

  lemma ParseSignedAfterSign(c: char, u: string)
    requires IsSignChar(c)
    ensures ParseSigned([c] + u) == if c == '-' then Negate(ParseDigits(u)) else ParseDigits(u)
  {
    assert ([c] + u)[1..] == u;
  }

  lemma ParseSignedOfParts(sign: Sign, d: string, rest: string)
    requires d != [] && AllDigits(d)
    requires rest == [] || !IsDigit(rest[0])
    ensures ParseSigned(sign.Text() + d + rest) == Int(sign.Apply(DigitsValue(d)))
  {
    var u := d + rest;
    ParseDigitsOfParts(d, rest);
    assert sign.Text() + d + rest == sign.Text() + u;
    match sign
    case NoSign =>
      assert sign.Text() + u == u && u[0] == d[0];
      ParseSignedUnsigned(u);
    case Plus =>
      assert sign.Text() == ['+'];
      ParseSignedAfterSign('+', u);
    case Minus =>
      assert sign.Text() == ['-'];
      ParseSignedAfterSign('-', u);
  }

  /** The value of a parse is determined by the parts it consumes. */
  lemma ParseIntOfParts(ws: string, sign: Sign, d: string, rest: string)
    requires AllWhitespace(ws)
    requires d != [] && AllDigits(d)
    requires rest == [] || !IsDigit(rest[0])
    ensures ParseInt(ws + sign.Text() + d + rest) == Int(sign.Apply(DigitsValue(d)))
  {
    var t := sign.Text() + d + rest;
    assert ws + sign.Text() + d + rest == ws + t;
    assert t[0] == if sign == NoSign then d[0] else sign.Text()[0];
    TrimStartSkips(ws, t);
    ParseSignedOfParts(sign, d, rest);
  }

  /** A digit after the white space and optional sign makes the parse a number. */
  lemma NumericPrefixParses(s: string, i: int)
    requires 0 <= i < |s| && AllWhitespace(s[..i])
    requires IsDigit(s[i]) || (IsSignChar(s[i]) && i + 1 < |s| && IsDigit(s[i + 1]))
    ensures ParseInt(s).Int?
  {
    var t := s[i..];
    assert s == s[..i] + t;
    TrimStartSkips(s[..i], t);
    if IsDigit(s[i]) {
      assert LeadingDigits(t) != [];
    } else {
      assert LeadingDigits(t[1..]) != [];
    }
  }

  /** `parseInt` gives NaN exactly when no digit follows the leading white space and optional sign. */
  lemma ParseIntNaN(s: string)
    ensures ParseInt(s).NaN? <==> !HasNumericPrefix(s)
  {
    if HasNumericPrefix(s) {
      var i :| 0 <= i < |s| && AllWhitespace(s[..i]) &&
        (IsDigit(s[i]) || (IsSignChar(s[i]) && i + 1 < |s| && IsDigit(s[i + 1])));
      NumericPrefixParses(s, i);
    }
    var t := TrimStart(s);
    var k := |s| - |t|;
    if ParseInt(s).Int? {
      assert t != [];
      assert s[k] == t[0];
      if IsSignChar(t[0]) {
        assert LeadingDigits(t[1..]) != [];
        assert s[k + 1] == t[1];
      } else {
        assert LeadingDigits(t) != [];
      }
    }
  }

  lemma {:induction false} DecimalValue(n: nat)
    ensures DigitsValue(Decimal(n)) == n
  {
    if n >= 10 {
      DecimalValue(n / 10);
      var d := Decimal(n);
      assert d[..|d| - 1] == Decimal(n / 10);
    }
  }

  /** Round trip: `parseInt` reads back the decimal rendering of any integer, whatever non-digit text follows it. */
  lemma ParseIntShow(n: int, rest: string)
    requires rest == [] || !IsDigit(rest[0])
    ensures ParseInt(Show(n) + rest) == Int(n)
  {
    var sign := if n < 0 then Minus else NoSign;
    var magnitude: nat := if n < 0 then -n else n;
    DecimalValue(magnitude);
    assert Show(n) + rest == [] + sign.Text() + Decimal(magnitude) + rest;
    ParseIntOfParts([], sign, Decimal(magnitude), rest);
  }
}
