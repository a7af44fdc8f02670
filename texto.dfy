/**
 * Decimal digits and the rendering of integers as JavaScript's `String(n)` does.
 * Used for the `match` patterns of the provider schema, for Mongoose's cast of
 * digit text to numbers and for interpolating numbers into ticket titles.
 */
module Texto {

  predicate IsDigit(c: char) {
    '0' <= c <= '9'
  }

  /** Every character is a decimal digit (the regular-expression class `\d`). */
  predicate AllDigits(s: string) {
    forall i :: 0 <= i < |s| ==> IsDigit(s[i])
  }

  function DigitChar(d: nat): (c: char)
    requires d < 10
    ensures IsDigit(c)
  {
    ('0' as int + d) as char
  }

  function DigitValue(c: char): (d: nat)
    requires IsDigit(c)
    ensures d < 10 && DigitChar(d) == c
  {
    c as int - '0' as int
  }

  /** Decimal rendering of a natural number, without leading zeros. */
  function NatToString(n: nat): string
    decreases n
  {
    if n < 10 then [DigitChar(n)] else NatToString(n / 10) + [DigitChar(n % 10)]
  }

  /** `String(n)` of a JavaScript integer. */
  function NumberToString(n: int): string {
    if n < 0 then "-" + NatToString(-n) else NatToString(n)
  }

  /** The value of a string of decimal digits (leading zeros allowed). */
  function DigitsValue(s: string): nat
    requires AllDigits(s)
  {
    if s == [] then 0 else DigitsValue(s[..|s| - 1]) * 10 + DigitValue(s[|s| - 1])
  }

  function Pow10(k: nat): (p: nat)
    ensures p >= 1
  {
    if k == 0 then 1 else 10 * Pow10(k - 1)
  }

  /** `s` padded on the left with `'0'` up to `width` characters. */
  function PadLeft(s: string, width: nat): string {
    if |s| >= width then s else seq(width - |s|, _ => '0') + s
  }

  lemma {:induction false} Pow10Monotone(i: nat, j: nat)
    requires i <= j
    ensures Pow10(i) <= Pow10(j)
    decreases j
  {
    if i < j {
      Pow10Monotone(i, j - 1);
    }
  }

  /** The rendering of `n` is a non-empty digit string whose value is `n` and whose length is the number of digits of `n`. */
  lemma {:induction false} NatToStringDigits(n: nat)
    ensures AllDigits(NatToString(n)) && |NatToString(n)| >= 1
    ensures DigitsValue(NatToString(n)) == n
    ensures n < 10 <==> |NatToString(n)| == 1
    ensures n >= 10 ==> Pow10(|NatToString(n)| - 1) <= n
    ensures n < Pow10(|NatToString(n)|)
    decreases n
  {
    var s := NatToString(n);
    if n < 10 {
      assert s == [DigitChar(n)];
      assert s[..0] == [];
    } else {
      var p := NatToString(n / 10);
      NatToStringDigits(n / 10);
      assert s == p + [DigitChar(n % 10)];
      assert s[..|s| - 1] == p;
      assert DigitValue(s[|s| - 1]) == n % 10;
      if n / 10 >= 10 {
        assert Pow10(|p| - 1) <= n / 10;
      } else {
        assert |p| == 1;
      }
      assert Pow10(|s| - 1) == 10 * Pow10(|p| - 1);
    }
  }

  /** For two or more digits, the rendering has exactly `k` characters iff `10^(k-1) <= n < 10^k`. */
  lemma DigitCount(n: nat, k: nat)
    requires k >= 2
    ensures |NatToString(n)| == k <==> Pow10(k - 1) <= n < Pow10(k)
  {
    NatToStringDigits(n);
    var m := |NatToString(n)|;
    if Pow10(k - 1) <= n < Pow10(k) {
      if m < k {
        Pow10Monotone(m, k - 1);
      } else if m > k {
        Pow10Monotone(k, m - 1);
      }
    }
    if m == k {
      assert Pow10(k - 1) <= n;
    }
  }

  /** Left zero padding keeps the digits and their value. */
  lemma {:induction false} PadLeftValue(s: string, width: nat)
    requires AllDigits(s)
    ensures AllDigits(PadLeft(s, width))
    ensures |PadLeft(s, width)| == if |s| >= width then |s| else width
    ensures DigitsValue(PadLeft(s, width)) == DigitsValue(s)
  {
    if |s| < width {
      ZerosPrefixValue(seq(width - |s|, _ => '0'), s);
    }
  }

  lemma {:induction false} ZerosPrefixValue(z: string, s: string)
    requires forall i :: 0 <= i < |z| ==> z[i] == '0'
    requires AllDigits(s)
    ensures AllDigits(z + s)
    ensures DigitsValue(z + s) == DigitsValue(s)
    decreases |s|
  {
    if s == [] {
      assert z + s == z;
      ZerosValue(z);
    } else {
      var t := z + s;
      assert t[..|t| - 1] == z + s[..|s| - 1];
      ZerosPrefixValue(z, s[..|s| - 1]);
    }
  }

  lemma {:induction false} ZerosValue(z: string)
    requires forall i :: 0 <= i < |z| ==> z[i] == '0'
    ensures AllDigits(z) && DigitsValue(z) == 0
    decreases |z|
  {
    if z != [] {
      ZerosValue(z[..|z| - 1]);
    }
  }
}
