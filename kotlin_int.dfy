/**
 * Kotlin/JVM integer semantics that the application relies on: 32-bit `Int`
 * range and wrap-around, division and remainder that truncate toward zero,
 * `Int.toString()` and `String.toIntOrNull()`.
 */
module KotlinInt {
  import opened Wrappers

  const INT_MIN: int := -0x8000_0000
  const INT_MAX: int := 0x7FFF_FFFF

  predicate IsInt32(x: int) {
    INT_MIN <= x <= INT_MAX
  }

  /** `x.coerceIn(lo, hi)`. */
  function CoerceIn(x: int, lo: int, hi: int): (r: int)
    requires lo <= hi
    ensures lo <= r <= hi
    ensures lo <= x <= hi ==> r == x
    ensures x < lo ==> r == lo
    ensures x > hi ==> r == hi
  {
    if x < lo then lo else if x > hi then hi else x
  }

  /** `x.coerceAtLeast(lo)`. */
  function CoerceAtLeast(x: int, lo: int): (r: int)
    ensures r >= lo
    ensures x >= lo ==> r == x
    ensures x < lo ==> r == lo
  {
    if x < lo then lo else x
  }

  /** Two's-complement wrap-around of an exact result into `Int`. */
  function Wrap32(x: int): (r: int)
    ensures IsInt32(r)
    ensures IsInt32(x) ==> r == x
    ensures (r - x) % TWO_TO_32 == 0
  {
    var m := (x - INT_MIN) % TWO_TO_32;
    m + INT_MIN
  }

  const TWO_TO_32: int := 0x1_0000_0000

  lemma ModShift(a: int, k: int)
    ensures (a + k * TWO_TO_32) % TWO_TO_32 == a % TWO_TO_32
  {
  }

  /** Values that differ by a multiple of 2^32 wrap to the same `Int`. */
  lemma WrapCongruent(x: int, y: int)
    requires (x - y) % TWO_TO_32 == 0
    ensures Wrap32(x) == Wrap32(y)
  {
    var k := (x - y) / TWO_TO_32;
    assert x - INT_MIN == (y - INT_MIN) + k * TWO_TO_32;
    ModShift(y - INT_MIN, k);
  }

  /** Wrapping an operand first does not change a wrapped product. */
  lemma WrapMul(a: int, b: int)
    ensures Wrap32(Wrap32(a) * b) == Wrap32(a * b)
  {
    var j := (Wrap32(a) - a) / TWO_TO_32;
    assert Wrap32(a) == a + j * TWO_TO_32;
    assert Wrap32(a) * b - a * b == (j * b) * TWO_TO_32;
    WrapCongruent(Wrap32(a) * b, a * b);
  }

  /** Wrapping the operands first does not change a wrapped sum. */
  lemma WrapAdd(a: int, b: int)
    ensures Wrap32(Wrap32(a) + Wrap32(b)) == Wrap32(a + b)
  {
    var i := (Wrap32(a) - a) / TWO_TO_32;
    var j := (Wrap32(b) - b) / TWO_TO_32;
    assert Wrap32(a) + Wrap32(b) - (a + b) == (i + j) * TWO_TO_32;
    WrapCongruent(Wrap32(a) + Wrap32(b), a + b);
  }

  /** `a / b` as Kotlin computes it: the quotient truncated toward zero. */
  function Quot(a: int, b: int): (q: int)
    requires b > 0
    ensures a >= 0 ==> q == a / b
    ensures a >= 0 ==> q >= 0
    ensures a < 0 ==> q <= 0
  {
    if a >= 0 then
      assert 0 <= a / b by { DivNonNegative(a, b); }
      a / b
    else
      assert 0 <= (-a) / b by { DivNonNegative(-a, b); }
      -((-a) / b)
  }

  lemma DivNonNegative(a: int, b: int)
    requires a >= 0 && b > 0
    ensures a / b >= 0
  {
  }

  /** Cancelling a positive factor keeps a strict order. */
  lemma MulCancel(x: int, y: int, d: int)
    requires d > 0 && x * d < y * d
    ensures x < y
  {
  }

  /** `a % b` as Kotlin computes it: it has the sign of `a`. */
  function Rem(a: int, b: int): (r: int)
    requires b > 0
    ensures Quot(a, b) * b + r == a
    ensures a >= 0 ==> 0 <= r < b
    ensures a < 0 ==> -b < r <= 0
  {
    a - Quot(a, b) * b
  }

  /** The Kotlin `hours`/`minutes` split used by every `formatDuration`:
      `(s % 3600) / 60` always lies strictly between -60 and 60. */
  lemma MinutesOfHourBounded(s: int)
    ensures -60 < Quot(Rem(s, 3600), 60) < 60
  {
    var r := Rem(s, 3600);
    if r >= 0 {
      assert r / 60 < 60;
    } else {
      assert (-r) / 60 < 60;
    }
  }

  function DigitChar(d: int): (c: char)
    requires 0 <= d < 10
    ensures '0' <= c <= '9'
  {
    (d + '0' as int) as char
  }

  predicate IsDigit(c: char) {
    '0' <= c <= '9'
  }

  predicate AllDigits(s: string) {
    forall i :: 0 <= i < |s| ==> IsDigit(s[i])
  }

  /** Decimal digits of a natural number, most significant first. */
  function NatToString(n: nat): (s: string)
    ensures |s| > 0 && AllDigits(s)
    decreases n
  {
    if n < 10 then [DigitChar(n)] else NatToString(n / 10) + [DigitChar(n % 10)]
  }

  /** `Int.toString()`: a minus sign for negative values, then the digits. */
  function IntToString(n: int): (s: string)
    ensures |s| > 0
    ensures n >= 0 <==> s[0] != '-'
  {
    if n < 0 then "-" + NatToString(-n) else NatToString(n)
  }

  /** The value of a string of decimal digits, read left to right. */
  function DigitsValue(s: string): (v: nat)
    requires AllDigits(s)
  {
    if |s| == 0 then 0 else DigitsValue(s[..|s| - 1]) * 10 + (s[|s| - 1] as int - '0' as int)
  }

  lemma {:induction false} DigitsValueOfNatToString(n: nat)
    ensures DigitsValue(NatToString(n)) == n
    decreases n
  {
    if n >= 10 {
      var s := NatToString(n / 10) + [DigitChar(n % 10)];
      assert s[..|s| - 1] == NatToString(n / 10);
      DigitsValueOfNatToString(n / 10);
    }
  }

  /**
   * `String.toIntOrNull()` (radix 10): an optional leading `-` or `+`, then at
   * least one decimal digit, and a value inside the `Int` range; anything else
   * is `null`. Only ASCII digits are accepted here.
   */
  function ToIntOrNull(s: string): (r: Option<int>)
    ensures r.Some? ==> IsInt32(r.value)
  {
    if |s| > 0 && (s[0] == '-' || s[0] == '+') then
      if |s| == 1 || !AllDigits(s[1..]) then None
      else
        var d: int := DigitsValue(s[1..]);
        var v := if s[0] == '-' then -d else d;
        if IsInt32(v) then Some(v) else None
    else if |s| > 0 && AllDigits(s) then
      var v := DigitsValue(s);
      if IsInt32(v) then Some(v) else None
    else None
  }

  lemma NatToStringParses(n: nat)
    requires n <= INT_MAX
    ensures ToIntOrNull(NatToString(n)) == Some(n)
  {
    var s := NatToString(n);
    DigitsValueOfNatToString(n);
    assert IsDigit(s[0]);
  }

  lemma NegativeToStringParses(n: int)
    requires INT_MIN <= n < 0
    ensures ToIntOrNull(IntToString(n)) == Some(n)
  {
    var s := IntToString(n);
    assert s == "-" + NatToString(-n);
    assert s[1..] == NatToString(-n);
    DigitsValueOfNatToString(-n);
    assert DigitsValue(s[1..]) == -n;
  }

  /** Parsing what `Int.toString()` printed gives the number back. */
  lemma ToIntOrNullOfIntToString(n: int)
    requires IsInt32(n)
    ensures ToIntOrNull(IntToString(n)) == Some(n)
  {
    if n < 0 {
      NegativeToStringParses(n);
    } else {
      NatToStringParses(n);
    }
  }

  /** Text that does not start with a sign or a digit never parses. */
  lemma ToIntOrNullRejectsNonNumeric(s: string)
    requires |s| > 0 && s[0] != '-' && s[0] != '+' && !IsDigit(s[0])
    ensures ToIntOrNull(s) == None
  {
  }
}
