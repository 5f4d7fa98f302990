/** Upper-case hexadecimal numerals, as written by Rust's `:X` format specifier:
    digits `0`-`9` and `A`-`F`, most significant digit first, no sign and
    no leading zeros. A signed 32-bit value is written as the bit pattern
    of its two's-complement representation. */
module Hex {

  /** Number of distinct 32-bit words. */
  const Word: nat := 0x1_0000_0000

  /** Rust's `i32`. */
  type Int32 = n: int | -0x8000_0000 <= n < 0x8000_0000

  /** The unsigned value of the 32-bit two's-complement pattern of `n`
      (Rust's `n as u32`, which the `:X` specifier prints for an `i32`). */
  function Bits32(n: Int32): (b: nat)
    ensures b < Word
    ensures b == n % Word
    // reading the pattern back as a signed word gives `n` again
    ensures (if b < 0x8000_0000 then b else b - Word) == n
  {
    if n < 0 then n + Word else n
  }

  predicate IsDigit(c: char) {
    '0' <= c <= '9' || 'A' <= c <= 'F'
  }

  ghost predicate AllDigits(s: string) {
    forall i :: 0 <= i < |s| ==> IsDigit(s[i])
  }

  /** A canonical numeral: at least one digit, and a leading `0` only in `0` itself. */
  ghost predicate IsNumeral(s: string) {
    |s| >= 1 && AllDigits(s) && (s[0] == '0' ==> |s| == 1)
  }

  function DigitChar(d: nat): (c: char)
    requires d < 16
    ensures IsDigit(c)
    ensures c == '0' <==> d == 0
  {
    if d < 10 then ('0' as int + d) as char else ('A' as int + d - 10) as char
  }

  function DigitValue(c: char): (d: nat)
    requires IsDigit(c)
    ensures d < 16 && DigitChar(d) == c
  {
    if c <= '9' then c as int - '0' as int else c as int - 'A' as int + 10
  }

  /** The digits of `n` in base 16, as the `:X` specifier writes them. */
  function ToHex(n: nat): (s: string)
    ensures IsNumeral(s)
    ensures s[0] == '0' <==> n == 0
    decreases n
  {
    if n < 16 then [DigitChar(n)] else ToHex(n / 16) + [DigitChar(n % 16)]
  }

  /** The value of a string of hex digits, most significant first. */
  ghost function ParseHex(s: string): nat
    requires AllDigits(s)
    decreases |s|
  {
    if s == [] then 0 else 16 * ParseHex(s[..|s| - 1]) + DigitValue(s[|s| - 1])
  }

  ghost function Pow16(k: nat): (p: nat)
    ensures p >= 1
  {
    if k == 0 then 1 else 16 * Pow16(k - 1)
  }

  /** Reading the digits back gives the number that was written. */
  lemma {:induction false} ParseToHex(n: nat)
    ensures ParseHex(ToHex(n)) == n
    decreases n
  {
    if n >= 16 {
      ParseToHex(n / 16);
      var s := ToHex(n);
      assert s[..|s| - 1] == ToHex(n / 16);
    }
  }

  /** A numeral that does not start with `0` denotes a positive number. */
  lemma {:induction false} ParseHexPositive(s: string)
    requires IsNumeral(s) && s[0] != '0'
    ensures ParseHex(s) >= 1
    decreases |s|
  {
    var last := s[|s| - 1];
    if |s| == 1 {
      assert s[..0] == [];
      assert DigitValue(last) != 0;
    } else {
      var p := s[..|s| - 1];
      assert p[0] == s[0];
      ParseHexPositive(p);
    }
  }

  /** Every canonical numeral is what `ToHex` writes for its value: the
      written form of a number is unique. */
  lemma {:induction false} ToHexParse(s: string)
    requires IsNumeral(s)
    ensures ToHex(ParseHex(s)) == s
    decreases |s|
  {
    var last := s[|s| - 1];
    if |s| == 1 {
      assert s[..0] == [];
      assert s == [last];
    } else {
      var p := s[..|s| - 1];
      assert p[0] == s[0];
      ToHexParse(p);
      ParseHexPositive(p);
      var n := ParseHex(s);
      assert n == 16 * ParseHex(p) + DigitValue(last);
      assert n / 16 == ParseHex(p) && n % 16 == DigitValue(last);
      assert s == p + [last];
    }
  }

  /** A number has at most `k` digits exactly when it is below `16^k`. */
  lemma {:induction false} ToHexLength(n: nat, k: nat)
    requires k >= 1
    ensures |ToHex(n)| <= k <==> n < Pow16(k)
    decreases n
  {
    assert Pow16(k) == 16 * Pow16(k - 1);
    if n >= 16 && k >= 2 {
      ToHexLength(n / 16, k - 1);
    }
  }
}
