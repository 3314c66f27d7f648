/** Rendering of naturals as digit strings in a base from 2 to 16, as Java's
    Integer.toHexString and Integer.toString do, with the parser that inverts it. */
module Digits {

  /** A Java int. */
  type Int32 = x: int | -0x8000_0000 <= x < 0x8000_0000

  /** The unsigned 32-bit reading of a Java int (what Integer.toHexString prints). */
  function Unsigned32(x: Int32): (u: nat)
    ensures u < 0x1_0000_0000
    ensures x >= 0 ==> u == x
    ensures x < 0 ==> u == x + 0x1_0000_0000
  {
    if x < 0 then x + 0x1_0000_0000 else x
  }

  /** The lower-case digit character for d, as in "0123456789abcdef". */
  function DigitChar(d: nat): (c: char)
    requires d < 16
    ensures '0' <= c <= '9' || 'a' <= c <= 'f'
  {
    if d < 10 then ('0' as int + d) as char else ('a' as int + d - 10) as char
  }

  /** The value of a lower-case digit character, or -1 for any other character. */
  function DigitValue(c: char): (v: int)
    ensures -1 <= v < 16
    ensures v >= 0 ==> DigitChar(v) == c
  {
    if '0' <= c <= '9' then c as int - '0' as int
    else if 'a' <= c <= 'f' then c as int - 'a' as int + 10
    else -1
  }

  lemma DigitValueOfChar(d: nat)
    requires d < 16
    ensures DigitValue(DigitChar(d)) == d
  {
  }

  /** The digits of n in the given base, most significant first, without leading zeros. */
  function ToDigits(n: nat, base: nat): (r: string)
    requires 2 <= base <= 16
    ensures |r| >= 1
    ensures '0' <= r[0] <= '9' || 'a' <= r[0] <= 'f'
    decreases n
  {
    if n < base then [DigitChar(n)]
    else ToDigits(n / base, base) + [DigitChar(n % base)]
  }

  /** The number a digit string denotes (characters that are not digits count as 0). */
  function FromDigits(s: string, base: nat): nat
    requires 2 <= base <= 16
  {
    if s == [] then 0
    else
      var d := DigitValue(s[|s| - 1]);
      FromDigits(s[..|s| - 1], base) * base + (if d < 0 then 0 else d)
  }

  lemma DivMod(n: nat, base: nat)
    requires base >= 2
    ensures n == (n / base) * base + n % base
    ensures n >= base ==> n / base < n
  {
  }

  lemma FromDigitsSnoc(s: string, d: nat, base: nat)
    requires 2 <= base <= 16 && d < base
    ensures FromDigits(s + [DigitChar(d)], base) == FromDigits(s, base) * base + d
  {
    DigitValueOfChar(d);
    assert (s + [DigitChar(d)])[..|s|] == s;
  }

  lemma {:induction false} FromToDigits(n: nat, base: nat)
    requires 2 <= base <= 16
    ensures FromDigits(ToDigits(n, base), base) == n
    decreases n
  {
    if n >= base {
      var q := n / base;
      DivMod(n, base);
      FromToDigits(q, base);
      FromDigitsSnoc(ToDigits(q, base), n % base, base);
    } else {
      FromDigitsSnoc([], n, base);
      assert [] + [DigitChar(n)] == [DigitChar(n)];
    }
  }

  /** Distinct numbers have distinct renderings. */
  lemma ToDigitsInjective(a: nat, b: nat, base: nat)
    requires 2 <= base <= 16
    ensures ToDigits(a, base) == ToDigits(b, base) ==> a == b
  {
    FromToDigits(a, base);
    FromToDigits(b, base);
  }

  /** Integer.toString(x): the decimal digits, preceded by '-' for a negative x. */
  function DecimalString(x: Int32): (r: string)
    ensures |r| >= 1
    ensures x < 0 <==> r[0] == '-'
    ensures x >= 0 ==> r == ToDigits(x, 10)
    ensures x < 0 ==> r[1..] == ToDigits(-(x as int), 10)
  {
    if x < 0 then "-" + ToDigits(-(x as int), 10) else ToDigits(x, 10)
  }

  /** Integer.toString is injective on Java ints. */
  lemma DecimalStringInjective(a: Int32, b: Int32)
    ensures DecimalString(a) == DecimalString(b) ==> a == b
  {
    if DecimalString(a) == DecimalString(b) {
      if a < 0 {
        ToDigitsInjective(-(a as int), -(b as int), 10);
        assert DecimalString(a)[1..] == DecimalString(b)[1..];
      } else {
        ToDigitsInjective(a, b, 10);
      }
    }
  }
}
