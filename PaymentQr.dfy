/** The amount line of the QR payment screen, always printed in German style with a euro sign. */
module PaymentQr {
  import opened Wrappers
  import opened Decimal

  /** The suffix every amount line ends with, whatever currency is selected elsewhere. */
  const EuroSuffix: string := " €"

  /**
    `formattedAmount`: `String.format(Locale.GERMANY, "%d,%02d €", amount / 100, amount % 100)`,
    with Kotlin's truncating `/` and `%`. It depends on `amount` alone.
  */
  function FormattedAmount(amount: int): (text: string)
    ensures |text| >= |EuroSuffix| && text[|text| - |EuroSuffix|..] == EuroSuffix
  {
    FormatUnitsComma(TruncDiv(amount, 100), TruncRem(amount, 100)) + EuroSuffix
  }

  /** Reference reading of an amount line: a `units,cc` text followed by the euro suffix. */
  function ParseFormattedAmount(text: string): Option<nat> {
    if |text| >= |EuroSuffix| && text[|text| - |EuroSuffix|..] == EuroSuffix then
      ParseUnitsComma(text[..|text| - |EuroSuffix|])
    else
      None
  }

  /**
    For a non-negative amount the line is the units without leading zeros, a comma,
    the cents (in 0..99) as exactly two digits, and " €"; `units * 100 + cents` is the amount.
  */
  lemma FormattedAmountParts(amount: nat)
    ensures var t := FormattedAmount(amount);
      var n := |t|;
      && n == NumDigits(amount / 100) + 5
      && t[..n - 5] == NatToString(amount / 100)
      && t[n - 5] == ','
      && IsDigits(t[n - 4..n - 2])
      && 0 <= ParseDigits(t[n - 4..n - 2]) <= 99
      && ParseDigits(t[..n - 5]) * 100 + ParseDigits(t[n - 4..n - 2]) == amount
  {
    var s := FormatUnitsComma(amount / 100, amount % 100);
    FormatUnitsCommaShape(amount / 100, amount % 100);
    NatToStringRoundTrip(amount / 100);
    var t := FormattedAmount(amount);
    assert t == s + EuroSuffix;
    assert t[..|t| - 5] == s[..|s| - 3];
    assert t[|t| - 4..|t| - 2] == s[|s| - 2..];
  }

  /** Reading the amount line back gives the amount, for every amount the keypad can produce. */
  lemma FormattedAmountRoundTrip(amount: nat)
    ensures ParseFormattedAmount(FormattedAmount(amount)) == Some(amount)
  {
    var s := FormatUnitsComma(TruncDiv(amount, 100), TruncRem(amount, 100));
    var t := FormattedAmount(amount);
    assert t[..|t| - |EuroSuffix|] == s;
    FormatUnitsCommaRoundTrip(amount);
  }

  /** A negative amount prints both parts with a sign, as Kotlin's `/` and `%` truncate toward zero. */
  lemma NegativeAmountLine()
    ensures FormattedAmount(-150) == "-1,-50 €"
  {
    assert TruncDiv(-150, 100) == -1 && TruncRem(-150, 100) == -50;
    assert NatToString(1) == "1";
    assert NatToString(50) == NatToString(5) + "0" == "50";
    assert LongToString(-1) == "-1";
    assert ZeroPad2(-50) == "-50";
    assert FormatUnitsComma(-1, -50) == "-1,-50";
  }

  /** Above -100 the units print as "0" and the sign shows only on the unpadded cents. */
  lemma NegativeCentsLine()
    ensures FormattedAmount(-5) == "0,-5 €"
  {
    assert TruncDiv(-5, 100) == 0 && TruncRem(-5, 100) == -5;
    assert NatToString(0) == "0" && NatToString(5) == "5";
    assert LongToString(0) == "0";
    assert LongToString(-5) == "-" + "5";
    assert ZeroPad2(-5) == "-5";
    assert FormatUnitsComma(0, -5) == "0" + "," + "-5";
    assert FormattedAmount(-5) == "0,-5" + EuroSuffix;
  }
}
