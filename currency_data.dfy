/** The currency data composable (src/composables/useCurrencyData.js): the
    conversion between two currencies by their rates, and the static seed
    lists of fiat currencies and cryptocurrencies it starts from. */
module CurrencyData {

  import opened Js
  import CurrencyFlags

  // ----- Conversion -----

  /** A conversion argument the guard rejects: undefined, null or zero.
      These are exactly the numeric arguments JavaScript counts as falsy. */
  predicate Missing(x: Option<real>)
    ensures Missing(x) <==> !Truthy(if x.None? then None else Some(Num(x.value)))
  {
    x.None? || x.value == 0.0
  }

  /** `amount` in the currency of `fromRate`, expressed in the currency of
      `toRate`, both rates being prices in one common currency. Any missing
      or zero argument gives 0, so the division is never by zero; otherwise
      the result is the amount whose value at `toRate` equals the value of
      `amount` at `fromRate`. */
  function ConvertCurrency(amount: Option<real>, fromRate: Option<real>, toRate: Option<real>): (r: real)
    ensures Missing(amount) || Missing(fromRate) || Missing(toRate) ==> r == 0.0
    ensures !Missing(amount) && !Missing(fromRate) && !Missing(toRate) ==>
              r * toRate.value == amount.value * fromRate.value && r != 0.0
  {
    if Missing(amount) || Missing(fromRate) || Missing(toRate) then 0.0
    else (amount.value * fromRate.value) / toRate.value
  }

  /** Converting between two currencies at the same rate leaves the amount
      unchanged. */
  lemma SameRateIsIdentity(amount: real, rate: real)
    requires rate != 0.0
    ensures ConvertCurrency(Some(amount), Some(rate), Some(rate)) == amount
  {
  }

  /** Converting there and back returns the original amount. */
  lemma ConvertRoundTrip(amount: real, fromRate: real, toRate: real)
    requires fromRate != 0.0 && toRate != 0.0
    ensures ConvertCurrency(Some(ConvertCurrency(Some(amount), Some(fromRate), Some(toRate))), Some(toRate), Some(fromRate)) == amount
  {
  }

  /** Converting through an intermediate currency gives the same result as
      converting directly. */
  lemma ConvertThrough(amount: real, fromRate: real, viaRate: real, toRate: real)
    requires fromRate != 0.0 && viaRate != 0.0 && toRate != 0.0
    ensures ConvertCurrency(Some(ConvertCurrency(Some(amount), Some(fromRate), Some(viaRate))), Some(viaRate), Some(toRate))
         == ConvertCurrency(Some(amount), Some(fromRate), Some(toRate))
  {
  }

  // ----- Seed data -----

  datatype CurrencySeed = CurrencySeed(code: string, name: string, flag: string, rate: real, change: real)

  datatype CryptoSeed = CryptoSeed(code: string, name: string, symbol: string, rate: real, change: real, icon: string)

  /** The fiat currencies the composable starts with. */
  const Currencies: seq<CurrencySeed> := [
    CurrencySeed("USD", "Dolar amerykański", "🇺🇸", 4.02, 0.5),
    CurrencySeed("EUR", "Euro", "🇪🇺", 4.32, -0.3),
    CurrencySeed("GBP", "Funt brytyjski", "🇬🇧", 5.08, 0.8),
    CurrencySeed("CHF", "Frank szwajcarski", "🇨🇭", 4.61, 0.2),
    CurrencySeed("JPY", "Jen japoński", "🇯🇵", 0.027, -0.1),
    CurrencySeed("CAD", "Dolar kanadyjski", "🇨🇦", 2.85, 0.4),
    CurrencySeed("AUD", "Dolar australijski", "🇦🇺", 2.56, -0.2),
    CurrencySeed("CNY", "Juan chiński", "🇨🇳", 0.55, 0.1),
    CurrencySeed("SEK", "Korona szwedzka", "🇸🇪", 0.38, 0.3),
    CurrencySeed("NOK", "Korona norweska", "🇳🇴", 0.37, -0.4)
  ]

  /** The cryptocurrencies the composable starts with. */
  const Cryptocurrencies: seq<CryptoSeed> := [
    CryptoSeed("BTC", "Bitcoin", "₿", 412500.00, 2.5, "mdi-bitcoin"),
    CryptoSeed("ETH", "Ethereum", "Ξ", 13800.00, 1.8, "mdi-ethereum"),
    CryptoSeed("USDT", "Tether", "₮", 4.02, 0.0, "mdi-currency-usd"),
    CryptoSeed("BNB", "Binance Coin", "BNB", 2450.00, -1.2, "mdi-hexagon-multiple"),
    CryptoSeed("SOL", "Solana", "SOL", 820.00, 3.4, "mdi-triangle"),
    CryptoSeed("XRP", "Ripple", "XRP", 9.20, 0.9, "mdi-water"),
    CryptoSeed("ADA", "Cardano", "₳", 3.85, -0.5, "mdi-alpha-a-circle"),
    CryptoSeed("DOGE", "Dogecoin", "Ð", 0.68, 5.2, "mdi-dog"),
    CryptoSeed("DOT", "Polkadot", "DOT", 28.50, 1.1, "mdi-circle-multiple"),
    CryptoSeed("MATIC", "Polygon", "MATIC", 3.42, -2.1, "mdi-hexagon")
  ]

  /** No two codes in the list are equal. */
  ghost predicate Distinct(codes: seq<string>)
  {
    forall i, j :: 0 <= i < j < |codes| ==> codes[i] != codes[j]
  }

  /** The codes of a seed list, in order. */
  function Codes<T>(s: seq<T>, code: T -> string): (codes: seq<string>)
    ensures |codes| == |s|
    ensures forall i :: 0 <= i < |s| ==> codes[i] == code(s[i])
  {
    seq(|s|, i requires 0 <= i < |s| => code(s[i]))
  }

  function CurrencyCode(c: CurrencySeed): string { c.code }

  function CryptoCode(c: CryptoSeed): string { c.code }

  /** The seed fiat list holds ten currencies with pairwise-distinct codes. */
  lemma CurrenciesDistinct()
    ensures |Currencies| == 10
    ensures Distinct(Codes(Currencies, CurrencyCode))
  {
  }

  /** The seed crypto list holds ten currencies with pairwise-distinct
      codes. */
  lemma CryptocurrenciesDistinct()
    ensures |Cryptocurrencies| == 10
    ensures Distinct(Codes(Cryptocurrencies, CryptoCode))
  {
  }

  /** Every seed fiat currency carries exactly the name and flag that the
      fallback table lists for its code, so the lookups reproduce them. */
  lemma CurrenciesMatchFlagTable()
    ensures forall i :: 0 <= i < |Currencies| ==>
      && Currencies[i].code in CurrencyFlags.Table
      && CurrencyFlags.Table[Currencies[i].code] == CurrencyFlags.Entry(Currencies[i].flag, Currencies[i].name)
    ensures forall i :: 0 <= i < |Currencies| ==>
      && CurrencyFlags.GetCurrencyName(Currencies[i].code) == Currencies[i].name
      && CurrencyFlags.GetCurrencyFlag(Currencies[i].code) == Currencies[i].flag
  {
    forall i | 0 <= i < |Currencies|
      ensures Currencies[i].code in CurrencyFlags.Table
      ensures CurrencyFlags.Table[Currencies[i].code] == CurrencyFlags.Entry(Currencies[i].flag, Currencies[i].name)
    {
    }
  }

  /** The seed fiat list covers every code of the fallback table. */
  lemma CurrenciesCoverFlagTable()
    ensures forall code :: code in CurrencyFlags.Table ==> code in Codes(Currencies, CurrencyCode)
  {
    var codes := Codes(Currencies, CurrencyCode);
    assert codes == ["USD", "EUR", "GBP", "CHF", "JPY", "CAD", "AUD", "CNY", "SEK", "NOK"];
  }
}
