/** The process-wide holder of the selected currency, shared by the settings and payment screens. */
module ViewModel {
  import opened Currencies

  class PaymentViewModel {
    /** The catalog offered for selection; a read-only property that never changes. */
    const currencies: seq<Currency>
    /** The selection; only `UpdateCurrency` assigns it (its setter is private). */
    var selectedCurrency: Currency

    /** The catalog is the fixed one and the selection is one of its entries. */
    ghost predicate Valid()
      reads this
    {
      currencies == Catalog() && selectedCurrency in currencies
    }

    /** A fresh holder selects the first catalog entry, the euro. */
    constructor ()
      ensures Valid()
      ensures selectedCurrency == currencies[0]
      ensures selectedCurrency.code == "EUR"
    {
      currencies := Catalog();
      selectedCurrency := Catalog()[0];
    }

    /** Selects exactly `currency`; any value is accepted, and a catalog entry keeps the holder valid. */
    method UpdateCurrency(currency: Currency)
      modifies this`selectedCurrency
      ensures selectedCurrency == currency
      ensures old(Valid()) && currency in currencies ==> Valid()
    {
      selectedCurrency := currency;
    }
  }

  /** Updating twice with the same currency leaves the same selection as updating once. */
  method UpdateCurrencyTwice(vm: PaymentViewModel, currency: Currency) returns (ghost once: Currency)
    modifies vm`selectedCurrency
    ensures once == currency
    ensures vm.selectedCurrency == once
  {
    vm.UpdateCurrency(currency);
    once := vm.selectedCurrency;
    vm.UpdateCurrency(currency);
  }

  /**
    The settings screen's currency menu: each item passes its own catalog entry to
    `UpdateCurrency`, so the selection stays a catalog member.
  */
  method SettingsCurrencyItemClick(vm: PaymentViewModel, i: nat)
    requires vm.Valid() && i < |vm.currencies|
    modifies vm`selectedCurrency
    ensures vm.Valid()
    ensures vm.selectedCurrency == vm.currencies[i]
  {
    vm.UpdateCurrency(vm.currencies[i]);
  }
}
