/** The shared record types of the site (types.ts). */
module Types {

  import opened Wrappers

  /** The three display currencies, in declaration order. */
  datatype Currency = NGN | USD | GBP

  /** All currency codes, as `Object.values(Currency)` enumerates them. */
  const AllCurrencies: seq<Currency> := [NGN, USD, GBP]

  /** The string value each enum member carries. */
  function CurrencyCode(c: Currency): string
  {
    match c
    case NGN => "NGN"
    case USD => "USD"
    case GBP => "GBP"
  }

  /** Reads a currency code back; any other string is not a currency. */
  function ParseCurrency(s: string): (r: Option<Currency>)
    ensures r.Some? ==> CurrencyCode(r.value) == s
  {
    if s == "NGN" then Some(NGN)
    else if s == "USD" then Some(USD)
    else if s == "GBP" then Some(GBP)
    else None
  }

  /** Parsing inverts the enum's string values, and they are pairwise distinct. */
  lemma CurrencyCodeRoundTrip(c: Currency)
    ensures ParseCurrency(CurrencyCode(c)) == Some(c)
  {
  }

  /** `AllCurrencies` lists every currency exactly once. */
  lemma AllCurrenciesComplete(c: Currency)
    ensures c in AllCurrencies
    ensures |AllCurrencies| == 3
  {
  }

  /** The author of a transcript entry. */
  datatype Role = User | Model

  /** One entry of the chat transcript. */
  datatype ChatMessage = ChatMessage(role: Role, text: string)
}
