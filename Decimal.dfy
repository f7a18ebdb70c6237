/**
  Decimal text of integers and Kotlin's `Long` division, as the screens use them:
  `Long.toString()` (also what a string template `"$x"` and `String.format`'s `%d`
  print), `String.toLong()` on a string of digits, the `%02d` conversion, and the
  `/` and `%` operators, which truncate toward zero. Digits are the ASCII ones.
*/
module Decimal {
  import opened Wrappers

  predicate IsDigit(c: char) {
    '0' <= c <= '9'
  }

  predicate IsDigits(s: string) {
    forall i :: 0 <= i < |s| ==> IsDigit(s[i])
  }

  function DigitValue(c: char): (d: nat)
    requires IsDigit(c)
    ensures d < 10
  {
    c as int - '0' as int
  }

  function DigitChar(d: nat): (c: char)
    requires d < 10
    ensures IsDigit(c) && DigitValue(c) == d
  {
    (d + '0' as int) as char
  }

  function Pow10(k: nat): (p: nat)
    ensures p >= 1
  {
    if k == 0 then 1 else 10 * Pow10(k - 1)
  }

  /** The number of characters of the decimal text of `n`; zero is written "0". */
  function NumDigits(n: nat): (k: nat)
    ensures k >= 1
  {
    if n < 10 then 1 else 1 + NumDigits(n / 10)
  }

  /** `Long.toString()` of a non-negative value: digits only, no leading zero. */
  function NatToString(n: nat): (s: string)
    ensures |s| == NumDigits(n) && IsDigits(s)
    ensures (s[0] == '0') == (n == 0)
  {
    if n < 10 then [DigitChar(n)] else NatToString(n / 10) + [DigitChar(n % 10)]
  }

  /** `Long.toString()`: a minus sign before the digits of a negative value. */
  function LongToString(n: int): (s: string)
    ensures |s| == if n < 0 then NumDigits(-n) + 1 else NumDigits(n)
    ensures (s[0] == '-') == (n < 0)
    ensures IsDigits(s[if n < 0 then 1 else 0..])
  {
    if n < 0 then "-" + NatToString(-n) else NatToString(n)
  }

  /** The value `String.toLong()` reads from a string of digits; leading zeros are allowed. */
  function ParseDigits(s: string): (n: nat)
    requires IsDigits(s)
    ensures n < Pow10(|s|)
  {
    if s == [] then 0 else ParseDigits(s[..|s| - 1]) * 10 + DigitValue(s[|s| - 1])
  }

  /**
    Reference reading of a decimal integer text: an optional minus sign followed by
    at least one digit. It is the partner against which the printers are checked.
  */
  function ParseLong(s: string): Option<int> {
    if |s| >= 2 && s[0] == '-' && IsDigits(s[1..]) then Some(0 - ParseDigits(s[1..]))
    else if |s| >= 1 && IsDigits(s) then Some(ParseDigits(s))
    else None
  }

  /** `String.format("%02d", n)`: at least two characters, zero-padded after any sign. */
  function ZeroPad2(n: int): (s: string)
    ensures 0 <= n < 100 ==> |s| == 2 && IsDigits(s)
    ensures n < 0 ==> |s| >= 2 && s[0] == '-'
  {
    if 0 <= n < 10 then "0" + NatToString(n) else LongToString(n)
  }

  /** `String.format("%d,%02d", units, rem)` with ASCII digits and no grouping. */
  function FormatUnitsComma(units: int, rem: int): string {
    LongToString(units) + "," + ZeroPad2(rem)
  }

  /**
    Reference reading of a text printed by `FormatUnitsComma` for a non-negative
    amount: digits, a comma and exactly two digits, read back as `units * 100 + cents`.
  */
  function ParseUnitsComma(s: string): Option<nat> {
    if |s| >= 4 && s[|s| - 3] == ',' && IsDigits(s[..|s| - 3]) && IsDigits(s[|s| - 2..]) then
      Some(ParseDigits(s[..|s| - 3]) * 100 + ParseDigits(s[|s| - 2..]))
    else
      None
  }

  /** Kotlin's `a / b` on `Long` for a positive divisor: the quotient rounded toward zero. */
  function TruncDiv(a: int, b: int): (q: int)
    requires b > 0
    ensures a >= 0 ==> 0 <= a - b * q < b
    ensures a < 0 ==> -b < a - b * q <= 0
  {
    if a >= 0 then a / b else -((-a) / b)
  }

  /** Kotlin's `a % b` on `Long` for a positive divisor: it takes the sign of `a`. */
  function TruncRem(a: int, b: int): (r: int)
    requires b > 0
    ensures a >= 0 ==> 0 <= r < b
    ensures a < 0 ==> -b < r <= 0
  {
    a - b * TruncDiv(a, b)
  }

  // ---------------------------------------------------------------------------
  // Lemmas

  lemma Pow10Add(i: nat, j: nat)
    ensures Pow10(i + j) == Pow10(i) * Pow10(j)
  {
    if i > 0 {
      Pow10Add(i - 1, j);
    }
  }

  lemma {:induction false} Pow10Monotone(i: nat, j: nat)
    requires i <= j
    ensures Pow10(i) <= Pow10(j)
  {
    if i < j {
      Pow10Monotone(i, j - 1);
    }
  }

  /** Reading back the text `Long.toString()` prints gives the value. */
  lemma {:induction false} NatToStringRoundTrip(n: nat)
    ensures ParseDigits(NatToString(n)) == n
  {
    if n >= 10 {
      var t := NatToString(n / 10);
      var s := t + [DigitChar(n % 10)];
      assert s[..|s| - 1] == t;
      NatToStringRoundTrip(n / 10);
    }
  }

  /** The value of a concatenation: the digits of `s` shifted left by `|t|` places. */
  lemma {:induction false} ParseConcat(s: string, t: string)
    requires IsDigits(s) && IsDigits(t)
    ensures IsDigits(s + t)
    ensures ParseDigits(s + t) == ParseDigits(s) * Pow10(|t|) + ParseDigits(t)
  {
    if t == [] {
      assert s + t == s;
    } else {
      var t', last := t[..|t| - 1], t[|t| - 1];
      var st := s + t;
      SplitLast(s, t);
      ParseConcat(s, t');
      var a, p, b, d := ParseDigits(s), Pow10(|t'|), ParseDigits(t'), DigitValue(last);
      assert ParseDigits(st) == ParseDigits(s + t') * 10 + d;
      ShiftDigit(ParseDigits(st), a, p, b, d, Pow10(|t|), ParseDigits(t));
    }
  }

  /** The last character of `s + t` comes from a non-empty `t`. */
  lemma SplitLast(s: string, t: string)
    requires t != []
    ensures (s + t)[..|s + t| - 1] == s + t[..|t| - 1] && (s + t)[|s + t| - 1] == t[|t| - 1]
  {
  }

  /** Appending one digit to `a` shifted by `p`: the shift grows tenfold and the low part takes the digit. */
  lemma ShiftDigit(x: int, a: int, p: int, b: int, d: int, q: int, r: int)
    requires x == (a * p + b) * 10 + d && q == p * 10 && r == b * 10 + d
    ensures x == a * q + r
  {
  }

  /** Every value below `10^k` (with `k >= 1`) has at most `k` digits. */
  lemma {:induction false} NumDigitsAtMost(n: nat, k: nat)
    requires k >= 1 && n < Pow10(k)
    ensures NumDigits(n) <= k
  {
    if n >= 10 {
      assert k >= 2;
      NumDigitsAtMost(n / 10, k - 1);
    }
  }

  /** Every value of at least `10^k` has more than `k` digits. */
  lemma {:induction false} NumDigitsAtLeast(n: nat, k: nat)
    requires Pow10(k) <= n
    ensures NumDigits(n) > k
  {
    if k > 0 {
      NumDigitsAtLeast(n / 10, k - 1);
    }
  }

  /** A value is below 10 to the power of its digit count. */
  lemma NumDigitsBound(n: nat)
    ensures n < Pow10(NumDigits(n))
  {
    NatToStringRoundTrip(n);
  }

  /** `%02d` prints every value in 0..99 as exactly two digits, which read back as the value. */
  lemma ZeroPad2TwoDigits(n: nat)
    requires n < 100
    ensures |ZeroPad2(n)| == 2 && IsDigits(ZeroPad2(n)) && ParseDigits(ZeroPad2(n)) == n
  {
    var s := ZeroPad2(n);
    if n < 10 {
      assert s[..1] == "0";
    } else {
      NatToStringRoundTrip(n);
    }
  }

  /** `ParseLong` reads back every text `Long.toString()` prints. */
  lemma LongToStringRoundTrip(n: int)
    ensures ParseLong(LongToString(n)) == Some(n)
  {
    var s := LongToString(n);
    if n < 0 {
      SplitSign(NatToString(-n));
      NatToStringRoundTrip(-n);
    } else {
      NatToStringRoundTrip(n);
    }
  }

  /** A minus sign written before `x` comes off again as the first character. */
  lemma SplitSign(x: string)
    ensures |"-" + x| == |x| + 1 && ("-" + x)[0] == '-' && ("-" + x)[1..] == x
  {
  }

  /**
    The text of a non-negative amount split as `units, rem`: the units exactly as
    `Long.toString()` prints them, a comma, and two digits whose value is `rem`.
  */
  lemma FormatUnitsCommaShape(units: nat, rem: nat)
    requires rem < 100
    ensures var s := FormatUnitsComma(units, rem);
      && |s| == NumDigits(units) + 3
      && s[..|s| - 3] == NatToString(units)
      && s[|s| - 3] == ','
      && IsDigits(s[|s| - 2..])
      && ParseDigits(s[|s| - 2..]) == rem
  {
    var u, c := NatToString(units), ZeroPad2(rem);
    ZeroPad2TwoDigits(rem);
    var s := FormatUnitsComma(units, rem);
    assert s == u + [','] + c;
    CommaJoinParts(u, c);
  }

  /** The parts of `u`, a comma and `c` written one after another. */
  lemma CommaJoinParts(u: string, c: string)
    ensures var s := u + [','] + c;
      && |s| == |u| + 1 + |c| && s[..|u|] == u && s[|u|] == ',' && s[|u| + 1..] == c
  {
  }

  /** Reading back the `units,cc` text of a non-negative amount gives the amount. */
  lemma FormatUnitsCommaRoundTrip(a: nat)
    ensures ParseUnitsComma(FormatUnitsComma(TruncDiv(a, 100), TruncRem(a, 100))) == Some(a)
  {
    var units, rem := a / 100, a % 100;
    assert TruncDiv(a, 100) == units && TruncRem(a, 100) == rem;
    FormatUnitsCommaShape(units, rem);
    NatToStringRoundTrip(units);
  }
}
