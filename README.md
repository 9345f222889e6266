# Exchange rates front end: currency lookups, upstream containment and conversion

A Dafny model of the decision logic of a small web front end that shows
currency exchange rates and cryptocurrency market statistics:

- **Currency flags** (`currency_flags.dfy`, module `CurrencyFlags`): the
  fixed table of ten currency codes with a flag emoji and a Polish display
  name, and the two lookups that fall back for a code the table does not
  list (the flag to the glyph 💱, the name to the code itself).
- **Exchange service** (`exchange_service.dfy`, module `ExchangeService`):
  what the service does with the settled outcome of its two upstream
  requests. The rates request returns the BFF (backend-for-frontend)
  payload unchanged or an empty list, and turns every failure into a thrown
  error whose message comes from the upstream body, else from the transport
  error, else from a fixed Polish default. The market statistics request
  never throws: a body of the wrong shape and every failure give the empty
  statistics `{data: {}}`, whatever the failure's cause (timeout, no
  answer, HTTP 429, other), which affects only logging.
- **Currency data** (`currency_data.dfy`, module `CurrencyData`): the
  guarded conversion `amount * fromRate / toRate`, which gives 0 for any
  missing or zero argument, and the two static seed lists of ten fiat
  currencies and ten cryptocurrencies.
- **JavaScript values** (`js.dfy`, module `Js`): parsed JSON values,
  `undefined` as `None`, the truthiness that `||` and `!` test, and
  optional chaining `?.`, which stops only on `null` and `undefined`.

Everything is pure: functions over datatypes and lemmas about them. The
HTTP request is an input value (`ExchangeService.Call`): the response the
request was answered with, or the error it was rejected with.

## Model

| member | source | states |
|---|---|---|
| CurrencyFlags.GetCurrencyFlag | src/assets/currencyFlags.js:25-27 | a listed code gets its table flag, any other code the default glyph 💱; the result is never empty |
| CurrencyFlags.GetCurrencyName | src/assets/currencyFlags.js:34-36 | a listed code gets its table name, any other code is returned unchanged (the intended lookup over the table's own entries) |
| CurrencyFlags.TableWellFormed | src/assets/currencyFlags.js:8-17 | every table entry has a non-empty flag and name, so the `||` fallback never fires for a listed code |
| CurrencyFlags.Lookup | src/assets/currencyFlags.js:26 | the property lookup finds an own entry exactly for the listed codes, and that entry is the table's |
| CurrencyFlags.GetCurrencyNameAsWritten | src/assets/currencyFlags.js:35 | the name lookup as JavaScript performs it, members inherited from Object.prototype included: listed codes get their name, codes neither listed nor inherited get themselves |
| CurrencyFlags.TableDisjointFromInherited | src/assets/currencyFlags.js:7-18 | no listed code is the key of an inherited Object.prototype member |
| CurrencyFlags.NameAsWrittenAgreesElsewhere | src/assets/currencyFlags.js:34-36 | the as-written name lookup agrees with the intended one on every code but "constructor" |
| CurrencyFlags.ConstructorNameDiverges | src/assets/currencyFlags.js:35 | for the unlisted code "constructor" the as-written lookup gives "Object", the intended one the code itself |
| CurrencyFlags.FlagIgnoresInherited | src/assets/currencyFlags.js:26 | inherited members carry no flag, so their keys get the default glyph |
| Js.Get | src/bff/exchangeService.js:13 | for keys that neither an array nor a prototype carries, such as "message" and "data" (the only keys the model looks up), `v?.[key]` is defined exactly when `v` is an object with an own field `key`, and is that field; `undefined`, `null` and every other value give undefined |
| Js.Or | src/bff/exchangeService.js:9 | JavaScript's logical or gives its first operand when that is truthy, and its second otherwise |
| ExchangeService.BodyMessage | src/bff/exchangeService.js:13 | the upstream body's message is defined exactly when the server answered with an object body holding a `message` field, and is that field |
| ExchangeService.TransportMessage | src/bff/exchangeService.js:14 | the transport error's message is defined exactly when the error has one, and is that string |
| ExchangeService.RatesErrorMessage | src/bff/exchangeService.js:12-16 | the thrown message is the body's message if truthy, else the transport message if non-empty, else the default text; it is always truthy |
| ExchangeService.RatesMessagePrecedence | src/bff/exchangeService.js:12-16 | over raw string fields: a non-empty body message wins, an empty one defers to a non-empty transport message, two empty ones give the default |
| ExchangeService.GetExchangeRates | src/bff/exchangeService.js:5-18 | an answered request returns its payload unchanged when truthy and an empty list otherwise, so the value is never falsy; a rejected request always throws, with RatesErrorMessage |
| ExchangeService.RatesPassThroughIdempotent | src/bff/exchangeService.js:8-9 | serving a returned payload again returns it unchanged: the call applies no transformation |
| ExchangeService.HasStatsShape | src/bff/exchangeService.js:25 | the shape check passes exactly for an object body holding a truthy `data` field |
| ExchangeService.GetMarketStats | src/bff/exchangeService.js:20-46 | never throws; returns the body unchanged when it and its `data` are truthy, the empty statistics otherwise and on every failure; the result always has a truthy `data` |
| ExchangeService.MarketStatsIgnoresCause | src/bff/exchangeService.js:31-46 | any two failures, whatever their causes, give the same result, the empty statistics |
| ExchangeService.MarketStatsIdempotent | src/bff/exchangeService.js:25-30 | whatever the call returns passes its shape check again and comes back unchanged |
| ExchangeService.MarketStatsBadShapes | src/bff/exchangeService.js:25-28 | no body, a body without `data`, and a body whose `data` is null each give the empty statistics |
| CurrencyData.Missing | src/composables/useCurrencyData.js:168 | an argument is rejected by the guard exactly when, as a number, it is falsy in JavaScript: undefined, null or zero |
| CurrencyData.ConvertCurrency | src/composables/useCurrencyData.js:167-170 | a missing or zero amount, source rate or target rate gives 0; otherwise the result is non-zero and its value at the target rate equals the amount's value at the source rate |
| CurrencyData.SameRateIsIdentity | src/composables/useCurrencyData.js:169 | converting at equal non-zero rates returns the amount |
| CurrencyData.ConvertRoundTrip | src/composables/useCurrencyData.js:167-170 | converting from one currency to another and back returns the original amount |
| CurrencyData.ConvertThrough | src/composables/useCurrencyData.js:167-170 | converting through an intermediate currency equals converting directly |
| CurrencyData.CurrenciesDistinct | src/composables/useCurrencyData.js:4-75 | the seed fiat list has ten records with pairwise-distinct codes |
| CurrencyData.CryptocurrenciesDistinct | src/composables/useCurrencyData.js:77-158 | the seed crypto list has ten records with pairwise-distinct codes |
| CurrencyData.CurrenciesMatchFlagTable | src/composables/useCurrencyData.js:4-75 | every seed fiat record's code is in the flag table with the same name and flag, so both lookups reproduce the record |
| CurrencyData.CurrenciesCoverFlagTable | src/composables/useCurrencyData.js:4-75 | every code of the flag table has a seed fiat record |

## Left out

- The HTTP requests themselves, the client construction, its timeouts and its logging interceptors (src/bff/apiClient.js): each request is an input value.
- All console logging, and with it the classification of a market statistics failure (timeout, no server answer, HTTP 429), which decides only which warning is logged. MarketStatsIgnoresCause covers every rejected request and proves that the result never depends on the cause.
- The endpoint URL constants (src/bff/exchange.js): the request is abstracted, so its URL plays no part.
- `formatCurrency` (src/composables/useCurrencyData.js:160-165): it delegates to the locale-dependent `Intl.NumberFormat`.
- Vue reactivity: the seed lists are plain constants. The composable never updates them.
- Application bootstrapping, routing and rendering (src/main.js).
- Floating point: rates and amounts are reals. `NaN`, its falsiness and IEEE rounding are not modelled.
- ConvertCurrency: arguments that are not numbers are not modelled (for instance a numeric string, which JavaScript would coerce). Missing means undefined, null or zero.
- RatesErrorMessage: yields the value handed to the `Error` constructor. The `String()` conversion of a non-string body message is not modelled; for a string it is the identity.
- GetExchangeRates: the thrown error is only its message. Its stack and its type are not modelled.
- Js.Get: does not find a string's or an array's `length`, an array's indices, or the members every object inherits from Object.prototype. The model looks up only "message" and "data", and no value carries those keys that way.
- Codes that are not strings, passed to the lookups, are not modelled.

## Findings

| source | as written | input that shows it | evidently intended | confidence | as-written member | corrected member |
|---|---|---|---|---|---|---|
| src/assets/currencyFlags.js:35 | `currencyFlags[code]?.name` also finds members inherited from Object.prototype; the inherited `constructor` is the function `Object`, whose `name` is "Object" | code "constructor" gives "Object" | an unlisted code gives the code itself, as the function's documentation says | not executed; follows from JavaScript property lookup on an object literal | CurrencyFlags.ConstructorNameDiverges | CurrencyFlags.GetCurrencyName |
