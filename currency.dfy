/** The currency context: the profile's currency code, its symbol, and the
    formatting of amounts with that symbol. */
module Currency {
  import opened Records

  /** `CURRENCY_SYMBOLS` */
  const Symbols: map<string, string> := map[
    "USD" := "$", "EUR" := "\U{20AC}", "GBP" := "\U{A3}", "INR" := "\U{20B9}",
    "JPY" := "\U{A5}", "CAD" := "C$", "AUD" := "A$"]

  /** What the context provides besides `formatAmount`. */
  datatype Context = Context(currency: string, symbol: string)

  /** The context's value outside any provider. */
  const Default: Context := Context("USD", "$")

  /** `profile.data?.currency || 'USD'` */
  function CurrencyOf(profileCurrency: Option<string>): (c: string)
    ensures c != ""
    ensures profileCurrency.Some? && profileCurrency.value != "" ==> c == profileCurrency.value
    ensures profileCurrency.None? || profileCurrency.value == "" ==> c == "USD"
  {
    Or(profileCurrency, "USD")
  }

  /** `CURRENCY_SYMBOLS[currency] || currency`: the table's symbol for a known
      code, the code itself for any other. */
  function SymbolOf(currency: string): (s: string)
    ensures currency in Symbols ==> s == Symbols[currency]
    ensures currency !in Symbols ==> s == currency
    ensures currency != "" ==> s != ""
  {
    if currency in Symbols && Symbols[currency] != "" then Symbols[currency] else currency
  }

  /** The value `CurrencyProvider` gives its children. */
  function Provide(profileCurrency: Option<string>): (ctx: Context)
    ensures ctx.currency == CurrencyOf(profileCurrency)
    ensures ctx.symbol == SymbolOf(ctx.currency) && ctx.symbol != ""
  {
    var currency := CurrencyOf(profileCurrency);
    Context(currency, SymbolOf(currency))
  }

  /** `formatAmount`: the symbol, then the number as `toLocaleString('en-US',
      { minimumFractionDigits: 2 })` writes it, which is the parameter digits. */
  function FormatAmount(ctx: Context, amount: real, digits: real -> string): (s: string)
    ensures ctx.symbol <= s
    ensures s[|ctx.symbol|..] == digits(amount)
  {
    ctx.symbol + digits(amount)
  }

  /** Without a profile, or with an empty currency, the provider gives the same
      value as the context's default, so amounts format alike inside and
      outside the provider. */
  lemma NoProfileIsDefault(profileCurrency: Option<string>, amount: real, digits: real -> string)
    requires profileCurrency.None? || profileCurrency.value == ""
    ensures Provide(profileCurrency) == Default
    ensures FormatAmount(Provide(profileCurrency), amount, digits) == FormatAmount(Default, amount, digits)
  {
  }

  /** Two different known codes never share a symbol, so the symbol in front
      of an amount tells which known currency it is. */
  lemma KnownSymbolsDistinct(a: string, b: string)
    requires a in Symbols && b in Symbols && a != b
    ensures SymbolOf(a) != SymbolOf(b)
  {
  }

  /** A formatted amount determines the known currency it was written in,
      whatever the digits: the known symbols all start differently. */
  lemma FormattedKnownCurrency(a: string, b: string, x: real, y: real, digits: real -> string)
    requires a in Symbols && b in Symbols
    requires FormatAmount(Context(a, SymbolOf(a)), x, digits) == FormatAmount(Context(b, SymbolOf(b)), y, digits)
    ensures a == b
  {
    var s := FormatAmount(Context(a, SymbolOf(a)), x, digits);
    assert s[0] == SymbolOf(a)[0] && s[0] == SymbolOf(b)[0];
  }
}
