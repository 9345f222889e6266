/** The local fallback table of currency flags and display names, and the
    two lookups that fall back when a code is not listed
    (src/assets/currencyFlags.js). */
module CurrencyFlags {

  import opened Js

  /** One row of the table: a flag emoji and a Polish display name. */
  datatype Entry = Entry(flag: string, name: string)

  /** The glyph shown for a currency with no flag of its own. */
  const DefaultFlag: string := "💱"

  /** The ten listed currencies, keyed by code. */
  const Table: map<string, Entry> := map[
    "USD" := Entry("🇺🇸", "Dolar amerykański"),
    "EUR" := Entry("🇪🇺", "Euro"),
    "GBP" := Entry("🇬🇧", "Funt brytyjski"),
    "CHF" := Entry("🇨🇭", "Frank szwajcarski"),
    "JPY" := Entry("🇯🇵", "Jen japoński"),
    "CAD" := Entry("🇨🇦", "Dolar kanadyjski"),
    "AUD" := Entry("🇦🇺", "Dolar australijski"),
    "CNY" := Entry("🇨🇳", "Juan chiński"),
    "SEK" := Entry("🇸🇪", "Korona szwedzka"),
    "NOK" := Entry("🇳🇴", "Korona norweska")
  ]

  /** Every entry has a flag and a name, so the `||` fallbacks of the two
      lookups never fire for a listed code. */
  ghost predicate WellFormed(t: map<string, Entry>)
  {
    forall code :: code in t ==> t[code].flag != "" && t[code].name != ""
  }

  lemma TableWellFormed()
    ensures WellFormed(Table)
  {
  }

  /** Flag of a currency: the listed flag, or the default glyph for any other
      code. Total, and never empty. */
  function GetCurrencyFlag(code: string): (r: string)
    ensures code in Table ==> r == Table[code].flag
    ensures code !in Table ==> r == DefaultFlag
    ensures r != ""
  {
    match Lookup(code)
    case Own(e) => if e.flag != "" then e.flag else DefaultFlag
    case _ => DefaultFlag
  }

  /** Display name of a currency: the listed name, or the code itself,
      unchanged, for any other code. This is the lookup over the table's own
      entries, which is what the source documents; GetCurrencyNameAsWritten
      below is what its property lookup actually does. */
  function GetCurrencyName(code: string): (r: string)
    ensures code in Table ==> r == Table[code].name
    ensures code !in Table ==> r == code
  {
    if code in Table && Table[code].name != "" then Table[code].name else code
  }

  // ---------------------------------------------------------------------
  // Property lookup as JavaScript performs it. `currencyFlags[code]` on an
  // object literal also finds the members every object inherits from
  // Object.prototype. None of them has a `flag` property; the functions
  // among them have a `name` property equal to their key, except
  // `constructor`, which is the function `Object` and so is named "Object";
  // `__proto__` yields Object.prototype itself, which has no `name`.
  // ---------------------------------------------------------------------

  /** The `name` property of each member inherited from Object.prototype. */
  const InheritedNames: map<string, Option<string>> := map[
    "constructor" := Some("Object"),
    "toString" := Some("toString"),
    "toLocaleString" := Some("toLocaleString"),
    "valueOf" := Some("valueOf"),
    "hasOwnProperty" := Some("hasOwnProperty"),
    "isPrototypeOf" := Some("isPrototypeOf"),
    "propertyIsEnumerable" := Some("propertyIsEnumerable"),
    "__defineGetter__" := Some("__defineGetter__"),
    "__defineSetter__" := Some("__defineSetter__"),
    "__lookupGetter__" := Some("__lookupGetter__"),
    "__lookupSetter__" := Some("__lookupSetter__"),
    "__proto__" := None
  ]

  /** What `currencyFlags[code]` evaluates to. */
  datatype Found = Own(entry: Entry) | Inherited(name: Option<string>) | Undefined

  function Lookup(code: string): (r: Found)
    ensures r.Own? <==> code in Table
    ensures r.Own? ==> r.entry == Table[code]
  {
    if code in Table then Own(Table[code])
    else if code in InheritedNames then Inherited(InheritedNames[code])
    else Undefined
  }

  /** `currencyFlags[code]?.name || code`, inherited members included. */
  function GetCurrencyNameAsWritten(code: string): (r: string)
    ensures code in Table ==> r == Table[code].name
    ensures code !in Table && code !in InheritedNames ==> r == code
  {
    match Lookup(code)
    case Own(e) => if e.name != "" then e.name else code
    case Inherited(Some(n)) => if n != "" then n else code
    case _ => code
  }

  /** No listed code collides with an inherited member. */
  lemma TableDisjointFromInherited()
    ensures Table.Keys !! InheritedNames.Keys
  {
  }

  /** The name lookup as written agrees with the intended one on every code
      except "constructor". */
  lemma NameAsWrittenAgreesElsewhere(code: string)
    requires code != "constructor"
    ensures GetCurrencyNameAsWritten(code) == GetCurrencyName(code)
  {
  }

  /** The input that shows the discrepancy: "constructor" is not a listed
      currency, yet the name lookup as written answers "Object" instead of
      the code itself. */
  lemma ConstructorNameDiverges()
    ensures GetCurrencyNameAsWritten("constructor") == "Object"
    ensures GetCurrencyName("constructor") == "constructor"
  {
  }

  /** The flag lookup is untouched by inheritance: an inherited member has no
      `flag`, so every code outside the table gets the default glyph. */
  lemma FlagIgnoresInherited(code: string)
    requires code in InheritedNames
    ensures GetCurrencyFlag(code) == DefaultFlag
  {
  }
}
