/** The currencies the payment screens offer: an immutable value per currency and the fixed catalog. */
module Currencies {

  /** A currency: its three-letter code, a display name and the symbol shown beside amounts. */
  datatype Currency = Currency(code: string, name: string, symbol: string)

  /** The six supported currencies, in the order the menus list them. */
  function Catalog(): (c: seq<Currency>)
    ensures |c| == 6
    ensures forall i, j :: 0 <= i < j < |c| ==> c[i].code != c[j].code
  {
    [ Currency("EUR", "Euro", "€"),
      Currency("GBP", "Pound", "£"),
      Currency("USD", "Dollar", "$"),
      Currency("JPY", "Yen", "¥"),
      Currency("BRL", "Real", "R$"),
      Currency("CHF", "Franc", "Fr") ]
  }

  /** The catalog's codes, in order; the first entry, the default selection, is the euro. */
  lemma CatalogCodes()
    ensures |Catalog()| == 6
    ensures Catalog()[0] == Currency("EUR", "Euro", "€")
    ensures seq(6, i requires 0 <= i < 6 => Catalog()[i].code) == ["EUR", "GBP", "USD", "JPY", "BRL", "CHF"]
  {
  }
}
