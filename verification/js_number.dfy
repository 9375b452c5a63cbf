/**
 * The part of JavaScript's number semantics that item-id assignment goes
 * through: `parseInt(s)` with no radix argument, `x + 1`, and `x.toString()`.
 * Numbers are integers or NaN; the double-precision rounding of integers
 * beyond 2^53 is not modelled.
 */
module JsNumber {

  /** A JavaScript number as seen by id assignment: an integer, or NaN. */
  datatype Number = Int(value: int) | NaN

  /** `x + 1`: NaN stays NaN. */
  function Plus1(x: Number): Number
  {
    match x
    case Int(n) => Int(n + 1)
    case NaN => NaN
  }

  /** `-x`: NaN stays NaN. */
  function Negate(x: Number): Number
  {
    match x
    case Int(n) => Int(-n)
    case NaN => NaN
  }

  // ---------------------------------------------------------------------------
  // parseInt

  /** The white space and line terminators that parseInt skips before the number. */
  predicate IsJsSpace(c: char)
  {
    var k := c as int;
    k == 0x09 || k == 0x0A || k == 0x0B || k == 0x0C || k == 0x0D || k == 0x20 ||
    k == 0xA0 || k == 0x1680 || (0x2000 <= k <= 0x200A) || k == 0x2028 || k == 0x2029 ||
    k == 0x202F || k == 0x205F || k == 0x3000 || k == 0xFEFF
  }

  /** Value of c as a digit in radix 36 (0-9, then a-z or A-Z); 36 when c is no digit at all. */
  function DigitValue(c: char): (d: nat)
    ensures d <= 36
  {
    if '0' <= c <= '9' then c as int - '0' as int
    else if 'a' <= c <= 'z' then c as int - 'a' as int + 10
    else if 'A' <= c <= 'Z' then c as int - 'A' as int + 10
    else 36
  }

  /** s without its leading white space. */
  function TrimStart(s: string): (t: string)
    ensures |t| <= |s| && t == s[|s| - |t|..]
    ensures t == [] || !IsJsSpace(t[0])
  {
    if s != [] && IsJsSpace(s[0]) then TrimStart(s[1..]) else s
  }

  /** Length of the longest prefix of s made of digits of the given radix. */
  function DigitRun(s: string, radix: nat): (n: nat)
    ensures n <= |s|
    ensures forall k :: 0 <= k < n ==> DigitValue(s[k]) < radix
    ensures n < |s| ==> DigitValue(s[n]) >= radix
  {
    if s != [] && DigitValue(s[0]) < radix then 1 + DigitRun(s[1..], radix) else 0
  }

  /** The value of a digit string, most significant digit first. */
  function DigitsValue(d: string, radix: nat): nat
    requires forall k :: 0 <= k < |d| ==> DigitValue(d[k]) < radix
  {
    if d == [] then 0
    else
      var init := d[..|d| - 1];
      assert forall k :: 0 <= k < |init| ==> init[k] == d[k];
      var high := DigitsValue(init, radix);
      MulNonNegative(high, radix);
      high * radix + DigitValue(d[|d| - 1])
  }

  lemma MulNonNegative(a: nat, b: nat)
    ensures a * b >= 0
  {
  }

  /**
   * The part of parseInt after the sign: radix 16 after a "0x" or "0X" prefix,
   * else radix 10; the longest run of digits is read and the rest ignored;
   * NaN when that run is empty.
   */
  function ParseUnsigned(u: string): (r: Number)
    ensures r.Int? ==> r.value >= 0
  {
    var hex := |u| >= 2 && u[0] == '0' && (u[1] == 'x' || u[1] == 'X');
    var radix := if hex then 16 else 10;
    var digits := if hex then u[2..] else u;
    var n := DigitRun(digits, radix);
    if n == 0 then NaN else Int(DigitsValue(digits[..n], radix))
  }

  /** `parseInt(s)`: skip leading white space, take one optional sign, read the digits. */
  function ParseInt(s: string): Number
  {
    var t := TrimStart(s);
    if t != [] && t[0] == '-' then Negate(ParseUnsigned(t[1..]))
    else if t != [] && t[0] == '+' then ParseUnsigned(t[1..])
    else ParseUnsigned(t)
  }

  // ---------------------------------------------------------------------------
  // toString

  function DigitChar(d: nat): (c: char)
    requires d < 10
    ensures '0' <= c <= '9' && DigitValue(c) == d
  {
    ('0' as int + d) as char
  }

  /** Decimal digits of n, without leading zeros. */
  function NatToDigits(n: nat): (s: string)
    ensures |s| >= 1
    ensures forall k :: 0 <= k < |s| ==> '0' <= s[k] <= '9'
  {
    if n < 10 then [DigitChar(n)] else NatToDigits(n / 10) + [DigitChar(n % 10)]
  }

  /** `String(i)` for an integer i. */
  function IntToString(i: int): string
  {
    if i < 0 then "-" + NatToDigits(-i) else NatToDigits(i)
  }

  /** `x.toString()`. */
  function ToString(x: Number): string
  {
    match x
    case Int(i) => IntToString(i)
    case NaN => "NaN"
  }

  // ---------------------------------------------------------------------------
  // Properties

  lemma {:induction false} DigitsValueOfNatToDigits(n: nat)
    ensures forall k :: 0 <= k < |NatToDigits(n)| ==> DigitValue(NatToDigits(n)[k]) < 10
    ensures DigitsValue(NatToDigits(n), 10) == n
  {
    var s := NatToDigits(n);
    if n >= 10 {
      DigitsValueOfNatToDigits(n / 10);
      assert s[..|s| - 1] == NatToDigits(n / 10);
    }
  }

  lemma {:induction false} DigitRunOfDecimal(s: string)
    requires forall k :: 0 <= k < |s| ==> '0' <= s[k] <= '9'
    ensures DigitRun(s, 10) == |s|
  {
    if s != [] {
      DigitRunOfDecimal(s[1..]);
    }
  }

  lemma {:induction false} ParseUnsignedOfNatToDigits(m: nat)
    ensures ParseUnsigned(NatToDigits(m)) == Int(m)
  {
    var d := NatToDigits(m);
    assert !(|d| >= 2 && (d[1] == 'x' || d[1] == 'X'));
    DigitRunOfDecimal(d);
    DigitsValueOfNatToDigits(m);
    assert d[..|d|] == d;
  }

  lemma TrimStartKeeps(s: string)
    requires s != [] && !IsJsSpace(s[0])
    ensures TrimStart(s) == s
  {
  }

  /** Text that starts with a minus sign parses as the negated rest. */
  lemma ParseIntMinus(d: string)
    ensures ParseInt("-" + d) == Negate(ParseUnsigned(d))
  {
    var s := "-" + d;
    assert s[0] == '-' && s[1..] == d;
    TrimStartKeeps(s);
  }

  /** Text that starts with neither white space nor a sign parses as unsigned. */
  lemma ParseIntUnsigned(s: string)
    requires s != [] && !IsJsSpace(s[0]) && s[0] != '-' && s[0] != '+'
    ensures ParseInt(s) == ParseUnsigned(s)
  {
    TrimStartKeeps(s);
  }

  lemma {:induction false} ParseIntOfNegative(i: int)
    requires i < 0
    ensures ParseInt(IntToString(i)) == Int(i)
  {
    var n: nat := -i;
    assert IntToString(i) == "-" + NatToDigits(n);
    ParseIntMinus(NatToDigits(n));
    ParseUnsignedOfNatToDigits(n);
  }

  lemma {:induction false} ParseIntOfNatural(i: int)
    requires i >= 0
    ensures ParseInt(IntToString(i)) == Int(i)
  {
    var d := NatToDigits(i);
    assert IntToString(i) == d;
    assert '0' <= d[0] <= '9';
    ParseIntUnsigned(d);
    ParseUnsignedOfNatToDigits(i);
  }

  /** Reading back what toString wrote gives the same integer. */
  lemma {:induction false} ParseIntOfIntToString(i: int)
    ensures ParseInt(IntToString(i)) == Int(i)
  {
    if i < 0 {
      ParseIntOfNegative(i);
    } else {
      ParseIntOfNatural(i);
    }
  }

  /** Text that starts with no digit and no "0x" prefix has no value. */
  lemma ParseUnsignedNoDigit(u: string)
    requires u != [] && u[0] != '0' && DigitValue(u[0]) >= 10
    ensures ParseUnsigned(u) == NaN
  {
    assert DigitRun(u, 10) == 0;
  }

  /** "NaN" has no leading digits, so it parses to NaN. */
  lemma ParseIntOfNaN()
    ensures ParseInt("NaN") == NaN
  {
    var s := "NaN";
    assert s[0] == 'N' && DigitValue('N') == 23;
    ParseIntUnsigned(s);
    ParseUnsignedNoDigit(s);
  }

  /** `parseInt(x.toString())` gives x back, NaN included. */
  lemma ParseIntOfToString(x: Number)
    ensures ParseInt(ToString(x)) == x
  {
    match x
    case Int(i) => ParseIntOfIntToString(i);
    case NaN => ParseIntOfNaN();
  }
}
