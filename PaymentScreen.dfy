/**
  The payment keypad: the amount being entered, held in minor units (cents), the
  digit and erase keys that change it, the `units,cc` text it is shown as, the
  currency menu, and the PAY button that hands the amount on.
*/
module PaymentScreen {
  import opened Wrappers
  import opened Decimal
  import opened Currencies

  /** An append is refused when the amount's text and the appended digits together are longer than this. */
  const MaxTextLength: nat := 12

  /** Every amount the keypad can hold is below 10^12 minor units. */
  const AmountLimit: nat := 1_000_000_000_000

  /** The keypad's rows of key labels, top to bottom; "X" is the erase key. */
  const KeyRows: seq<seq<string>> := [["1", "2", "3"], ["4", "5", "6"], ["7", "8", "9"], ["00", "0", "X"]]

  const KeyLabels: seq<string> := KeyRows[0] + KeyRows[1] + KeyRows[2] + KeyRows[3]

  // ---------------------------------------------------------------------------
  // The keypad's effect on the amount, as functions of the amount before the key

  /** Whether `appendDigits(digits)` accepts: the decimal text of `a` ("0" for zero) and `digits` fit in 12 characters. */
  predicate Fits(a: nat, digits: string) {
    NumDigits(a) + |digits| <= MaxTextLength
  }

  /** `appendDigits`: the amount after appending `digits` to the decimal text of `a` and reading it back. */
  function Append(a: nat, digits: string): nat
    requires IsDigits(digits)
  {
    var asString := NatToString(a);
    if |asString| + |digits| > MaxTextLength then a else ParseDigits(asString + digits)
  }

  /** `eraseOne`: Kotlin's `amountCents /= 10`, which for a non-negative amount is floor division. */
  function Erase(a: nat): (r: nat)
    ensures r * 10 <= a < r * 10 + 10
  {
    TruncDiv(a, 10)
  }

  /** `k` presses of the erase key. */
  function EraseTimes(a: nat, k: nat): nat {
    if k == 0 then a else EraseTimes(Erase(a), k - 1)
  }

  /** The key dispatcher: "X" erases, "00" appends two zeros, any other key appends itself. */
  function Press(a: nat, key: string): nat
    requires key in KeyLabels
  {
    if key == "X" then Erase(a)
    else if key == "00" then Append(a, "00")
    else Append(a, key)
  }

  predicate AllKeys(labels: seq<string>) {
    forall i :: 0 <= i < |labels| ==> labels[i] in KeyLabels
  }

  /** The amount after pressing the keys `labels`, in order. */
  function PressAll(a: nat, labels: seq<string>): nat
    requires AllKeys(labels)
    decreases |labels|
  {
    if labels == [] then a else PressAll(Press(a, labels[0]), labels[1..])
  }

  /** The labels written one after another. */
  function Concat(labels: seq<string>): string {
    if labels == [] then "" else labels[0] + Concat(labels[1..])
  }

  /** `formatAmountDisplay`: `cents / 100`, a comma and `cents % 100` as two digits, with Kotlin's truncating operators. */
  function FormatAmountDisplay(cents: int): string {
    FormatUnitsComma(TruncDiv(cents, 100), TruncRem(cents, 100))
  }

  // ---------------------------------------------------------------------------
  // The screen's state

  /** The state the payment screen keeps across recompositions. */
  class PaymentScreenState {
    const currencies: seq<Currency>
    var selectedCurrency: Currency
    var isCurrencyMenuExpanded: bool
    var amountCents: int

    /** The catalog is the fixed one, the selection is one of its entries and the amount is in range. */
    ghost predicate Valid()
      reads this
    {
      && currencies == Catalog()
      && selectedCurrency in currencies
      && 0 <= amountCents < AmountLimit
    }

    /** A fresh screen: amount 0, the first currency selected, the menu closed. */
    constructor ()
      ensures Valid()
      ensures amountCents == 0
      ensures selectedCurrency == currencies[0] == Currency("EUR", "Euro", "€")
      ensures !isCurrencyMenuExpanded
    {
      currencies := Catalog();
      selectedCurrency := Catalog()[0];
      isCurrencyMenuExpanded := false;
      amountCents := 0;
    }

    method AppendDigits(digits: string)
      requires Valid() && IsDigits(digits)
      modifies this`amountCents
      ensures Valid()
      ensures amountCents == Append(old(amountCents), digits)
    {
      var asString := NatToString(amountCents);
      if |asString| + |digits| > MaxTextLength {
        return;
      }
      AppendKeepsBound(amountCents, digits);
      amountCents := ParseDigits(asString + digits);
    }

    method EraseOne()
      requires Valid()
      modifies this`amountCents
      ensures Valid()
      ensures amountCents == Erase(old(amountCents))
    {
      amountCents := amountCents / 10;
    }

    /** The click handler of the key labelled `key`. */
    method PressKey(key: string)
      requires Valid() && key in KeyLabels
      modifies this`amountCents
      ensures Valid()
      ensures amountCents == Press(old(amountCents), key)
    {
      if key == "X" {
        EraseOne();
      } else if key == "00" {
        AppendDigits("00");
      } else {
        AppendDigits(key);
      }
    }

    /** The PAY button: the amount handed to `onPay`, unchanged, zero included. */
    method Pay() returns (amount: int)
      requires Valid()
      ensures amount == amountCents
      ensures 0 <= amount < AmountLimit
    {
      amount := amountCents;
    }

    /** Tapping the currency symbol opens the menu. */
    method OpenCurrencyMenu()
      requires Valid()
      modifies this`isCurrencyMenuExpanded
      ensures Valid()
      ensures isCurrencyMenuExpanded
    {
      isCurrencyMenuExpanded := true;
    }

    /** Dismissing the menu closes it and changes nothing else. */
    method DismissCurrencyMenu()
      requires Valid()
      modifies this`isCurrencyMenuExpanded
      ensures Valid()
      ensures !isCurrencyMenuExpanded
    {
      isCurrencyMenuExpanded := false;
    }

    /** The menu item of the `i`-th catalog entry: selects it and closes the menu; the amount is kept. */
    method SelectCurrency(i: nat)
      requires Valid() && i < |currencies|
      modifies this`selectedCurrency, this`isCurrencyMenuExpanded
      ensures Valid()
      ensures selectedCurrency == currencies[i]
      ensures !isCurrencyMenuExpanded
    {
      selectedCurrency := currencies[i];
      isCurrencyMenuExpanded := false;
    }
  }

  // ---------------------------------------------------------------------------
  // Lemmas

  /** Every key label other than "X" is one or two decimal digits. */
  lemma KeyLabelsAreDigits(key: string)
    requires key in KeyLabels
    ensures key == "X" || (IsDigits(key) && 1 <= |key| <= 2)
  {
  }

  /**
    What `appendDigits` computes: when the texts fit, the digits are shifted in from
    the right (a leading zero of a zero amount disappears); otherwise nothing changes.
  */
  lemma AppendValue(a: nat, digits: string)
    requires IsDigits(digits)
    ensures Fits(a, digits) ==> Append(a, digits) == a * Pow10(|digits|) + ParseDigits(digits)
    ensures !Fits(a, digits) ==> Append(a, digits) == a
  {
    if Fits(a, digits) {
      ParseConcat(NatToString(a), digits);
      NatToStringRoundTrip(a);
    }
  }

  /** On a zero amount a digit replaces the zero and "00" leaves zero. */
  lemma LeadingZeroCollapses()
    ensures Append(0, "5") == 5
    ensures Append(0, "00") == 0
  {
    AppendValue(0, "5");
    AppendValue(0, "00");
  }

  /** An amount below 10^12 stays below 10^12 after an append, so `toLong` never overflows. */
  lemma AppendKeepsBound(a: nat, digits: string)
    requires IsDigits(digits) && a < AmountLimit
    ensures Append(a, digits) < AmountLimit
  {
    var s := NatToString(a);
    if |s| + |digits| <= MaxTextLength {
      ParseConcat(s, digits);
      Pow10Monotone(|s + digits|, MaxTextLength);
      assert Pow10(MaxTextLength) == AmountLimit;
    }
  }

  /** Erasing keeps the amount in range, and any single-digit amount erases to zero. */
  lemma EraseKeepsBound(a: nat)
    requires a < AmountLimit
    ensures Erase(a) <= a && Erase(a) < AmountLimit
    ensures a <= 9 ==> Erase(a) == 0
  {
  }

  /** `k` erasures reach zero exactly when `k` is at least the number of digits of `a` (or `a` is already zero). */
  lemma {:induction false} EraseTimesZero(a: nat, k: nat)
    ensures EraseTimes(a, k) == 0 <==> (a == 0 || k >= NumDigits(a))
  {
    if k > 0 {
      EraseTimesZero(Erase(a), k - 1);
    }
  }

  /** Erasing `k` times removes `k` digits shifted in from the right. */
  lemma {:induction false} EraseTimesShift(x: nat, a: nat, v: nat, k: nat)
    requires v < Pow10(k) && x == a * Pow10(k) + v
    ensures EraseTimes(x, k) == a
  {
    if k > 0 {
      var p := Pow10(k - 1);
      assert Pow10(k) == p * 10;
      DropLastDigit(x, a, p, v);
      EraseTimesShift(Erase(x), a, v / 10, k - 1);
    }
  }

  /** Dividing `a * (10 p) + v` by ten keeps `a` in front of the shorter `v / 10`. */
  lemma DropLastDigit(x: nat, a: nat, p: nat, v: nat)
    requires v < p * 10 && x == a * (p * 10) + v
    ensures Erase(x) == a * p + v / 10 && v / 10 < p
  {
    var q := a * p;
    assert x == 10 * (q + v / 10) + v % 10;
  }

  /** An accepted append of `digits` is undone by `|digits|` erasures. */
  lemma AppendThenErase(a: nat, digits: string)
    requires IsDigits(digits) && Fits(a, digits)
    ensures EraseTimes(Append(a, digits), |digits|) == a
  {
    AppendValue(a, digits);
    EraseTimesShift(Append(a, digits), a, ParseDigits(digits), |digits|);
  }

  /**
    A refused append is not undone by an erase: with 12 characters already shown,
    "5" leaves the amount unchanged and "X" then drops a digit the user typed.
  */
  lemma RefusedAppendNotUndone()
    ensures Append(100_000_000_000, "5") == 100_000_000_000
    ensures EraseTimes(Append(100_000_000_000, "5"), 1) == 10_000_000_000
  {
    var a := 100_000_000_000;
    assert Pow10(11) == a;
    NumDigitsAtLeast(a, 11);
    assert !Fits(a, "5");
    AppendValue(a, "5");
  }

  /**
    At the key level: when a digit key's append is accepted, one press of "X" undoes a
    single digit and two presses undo "00".
  */
  lemma PressThenErase(a: nat, key: string)
    requires key in KeyLabels && key != "X" && Fits(a, key)
    ensures |key| == 1 ==> PressAll(a, [key, "X"]) == a
    ensures |key| == 2 ==> PressAll(a, [key, "X", "X"]) == a
  {
    KeyLabelsAreDigits(key);
    AppendThenErase(a, key);
    var b := Press(a, key);
    assert PressAll(b, ["X"]) == Erase(b) by {
      assert ["X"][1..] == [];
    }
    assert PressAll(b, ["X", "X"]) == Erase(Erase(b)) by {
      assert ["X", "X"][1..] == ["X"];
      assert PressAll(Erase(b), ["X"]) == Erase(Erase(b)) by {
        assert ["X"][1..] == [];
      }
    }
    if |key| == 1 {
      assert [key, "X"][1..] == ["X"];
      assert EraseTimes(b, 1) == Erase(b);
    } else {
      assert [key, "X", "X"][1..] == ["X", "X"];
      assert EraseTimes(b, 2) == EraseTimes(Erase(b), 1) == Erase(Erase(b));
    }
  }

  /** One digit key pressed after a digit prefix `p` appends its label to `p`, when the text stays within 12 characters. */
  lemma PressDigitKey(p: string, key: string)
    requires IsDigits(p) && key in KeyLabels && key != "X"
    requires |p| + |key| <= MaxTextLength
    ensures IsDigits(p + key)
    ensures Press(ParseDigits(p), key) == ParseDigits(p + key)
  {
    KeyLabelsAreDigits(key);
    var v := ParseDigits(p);
    if p != [] {
      NumDigitsAtMost(v, |p|);
    }
    AppendValue(v, key);
    ParseConcat(p, key);
  }

  /** Pressing the first of several digit keys moves its label from the keys onto the prefix. */
  lemma PressFirstKey(p: string, labels: seq<string>)
    requires IsDigits(p) && AllKeys(labels) && labels != []
    requires forall i :: 0 <= i < |labels| ==> labels[i] != "X"
    requires |p| + |Concat(labels)| <= MaxTextLength
    ensures IsDigits(p + labels[0]) && AllKeys(labels[1..])
    ensures forall i :: 0 <= i < |labels[1..]| ==> labels[1..][i] != "X"
    ensures |p + labels[0]| + |Concat(labels[1..])| <= MaxTextLength
    ensures p + Concat(labels) == (p + labels[0]) + Concat(labels[1..])
    ensures PressAll(ParseDigits(p), labels) == PressAll(ParseDigits(p + labels[0]), labels[1..])
  {
    var l, rest := labels[0], labels[1..];
    assert Concat(labels) == l + Concat(rest);
    assert l != "X" && l in KeyLabels;
    assert forall i :: 0 <= i < |rest| ==> rest[i] == labels[i + 1];
    PressDigitKey(p, l);
    var v := ParseDigits(p);
    assert PressAll(v, labels) == PressAll(Press(v, l), rest);
    AppendAssociative(p, l, Concat(rest));
  }

  lemma AppendAssociative(x: string, y: string, z: string)
    ensures x + (y + z) == (x + y) + z
  {
  }

  /**
    Digit keys pressed after a digit prefix `p` build the number written by `p`
    followed by the labels, as long as the whole text has at most 12 characters.
  */
  lemma {:induction false} PressDigitKeys(p: string, labels: seq<string>)
    requires IsDigits(p) && AllKeys(labels)
    requires forall i :: 0 <= i < |labels| ==> labels[i] != "X"
    requires |p| + |Concat(labels)| <= MaxTextLength
    ensures IsDigits(p + Concat(labels))
    ensures PressAll(ParseDigits(p), labels) == ParseDigits(p + Concat(labels))
    decreases |labels|
  {
    if labels == [] {
      assert p + Concat(labels) == p;
    } else {
      var l, rest := labels[0], labels[1..];
      PressFirstKey(p, labels);
      PressDigitKeys(p + l, rest);
    }
  }

  /** From a zero amount, digit keys whose labels total at most 12 characters give the number they spell. */
  lemma DigitKeysFromZero(labels: seq<string>)
    requires AllKeys(labels)
    requires forall i :: 0 <= i < |labels| ==> labels[i] != "X"
    requires |Concat(labels)| <= MaxTextLength
    ensures IsDigits(Concat(labels))
    ensures PressAll(0, labels) == ParseDigits(Concat(labels))
  {
    PressDigitKeys("", labels);
    assert "" + Concat(labels) == Concat(labels);
  }

  /** Pressing 5, 0, 0 gives 500; X then gives 50, and X, X give 0. */
  lemma KeypadScenario()
    ensures PressAll(0, ["5", "0", "0"]) == 500
    ensures PressAll(500, ["X"]) == 50
    ensures PressAll(50, ["X", "X"]) == 0
  {
    DigitKeysFromZero(["5", "0", "0"]);
    assert Concat(["5", "0", "0"]) == "500";
    assert ParseDigits("500") == 500;
    assert ["X", "X"][1..] == ["X"];
  }

  /** 500 minor units are displayed as "5,00", 5 as "0,05". */
  lemma DisplayExamples()
    ensures FormatAmountDisplay(500) == "5,00"
    ensures FormatAmountDisplay(5) == "0,05"
  {
  }

  /**
    The display text of a non-negative amount: the units without leading zeros, a
    comma and exactly two digits; reading it back gives the amount.
  */
  lemma DisplayRoundTrip(cents: nat)
    ensures ParseUnitsComma(FormatAmountDisplay(cents)) == Some(cents)
    ensures var s := FormatAmountDisplay(cents);
      s[..|s| - 3] == NatToString(cents / 100) && s[|s| - 3] == ',' &&
      IsDigits(s[|s| - 2..]) && ParseDigits(s[|s| - 2..]) == cents % 100
  {
    FormatUnitsCommaRoundTrip(cents);
    FormatUnitsCommaShape(cents / 100, cents % 100);
  }

  /** Different non-negative amounts are displayed differently. */
  lemma DisplayInjective(a: nat, b: nat)
    requires FormatAmountDisplay(a) == FormatAmountDisplay(b)
    ensures a == b
  {
    DisplayRoundTrip(a);
    DisplayRoundTrip(b);
  }

  /** Every amount the keypad reaches from a valid one is valid again: the range invariant of the key handlers. */
  lemma PressKeepsBound(a: nat, key: string)
    requires key in KeyLabels && a < AmountLimit
    ensures Press(a, key) < AmountLimit
  {
    KeyLabelsAreDigits(key);
    if key != "X" {
      AppendKeepsBound(a, key);
    }
  }
}
