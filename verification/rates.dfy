/** The currency conversion table (constants.ts, `CURRENCY_RATES`). */
module Rates {

  import opened Types

  /**
   Multiplicative factors from the home currency (naira) to each display currency, keyed
   by code string as the object literal is.
   */
  const CurrencyRates: map<string, real> := map["NGN" := 1.0, "USD" := 0.000625, "GBP" := 0.00049]

  /** Every currency's enum string is a key of the table. */
  lemma CurrencyInTable(c: Currency)
    ensures CurrencyCode(c) in CurrencyRates
  {
    match c
    case NGN =>
    case USD =>
    case GBP =>
  }

  /** The bracket lookup `CURRENCY_RATES[currency]`; total because every enum string is a key. */
  function Rate(c: Currency): (r: real)
    ensures CurrencyCode(c) in CurrencyRates && r == CurrencyRates[CurrencyCode(c)]
    ensures r > 0.0
  {
    CurrencyInTable(c);
    CurrencyRates[CurrencyCode(c)]
  }

  /** The table's keys are exactly the enum's strings: every key reads back as a currency, and every currency is a key. */
  lemma RateTableKeysAreCurrencies()
    ensures forall c: Currency :: CurrencyCode(c) in CurrencyRates
    ensures forall k :: k in CurrencyRates <==> ParseCurrency(k).Some?
  {
    forall c: Currency ensures CurrencyCode(c) in CurrencyRates {
      CurrencyInTable(c);
    }
    forall k ensures k in CurrencyRates <==> ParseCurrency(k).Some? {
      if ParseCurrency(k).Some? {
        CurrencyInTable(ParseCurrency(k).value);
      }
    }
  }

  /** The stated rates: NGN is 1, USD is 0.000625, GBP is 0.00049. */
  lemma RateValues()
    ensures Rate(NGN) == 1.0
    ensures Rate(USD) == 0.000625
    ensures Rate(GBP) == 0.00049
  {
  }

  /** Converting at the home rate leaves an amount unchanged. */
  lemma HomeCurrencyIsIdentity(amount: real)
    ensures amount * Rate(NGN) == amount
  {
  }

  /** Exactly one table entry equals 1, and it is NGN's: the home currency. */
  lemma ExactlyOneHomeCurrency()
    ensures forall k :: k in CurrencyRates && CurrencyRates[k] == 1.0 <==> k == "NGN"
    ensures forall c: Currency :: Rate(c) == 1.0 <==> c == NGN
  {
  }
}
