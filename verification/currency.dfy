/**
 * The currency converter (convert_currency): the divide-then-multiply rule
 * with rates supplied by the caller, each the number of units of a currency
 * per one unit of the pivot currency.
 */
module Currency {
  import opened Wrappers
  import opened Dicts
  import opened Rescaling

  /** The rate the dict holds for a listed currency code. */
  function Rate(rates: Dict<real>, code: string): (rate: real)
    requires code in Keys(rates)
    ensures (code, rate) in rates
  {
    Get(rates, code).value
  }

  /**
   * Converts between two currency codes. The result exists exactly when
   * both codes are listed, and it is the same amount of the pivot currency
   * as the input (a zero target rate gives zero). A zero rate for the source code would be a division by
   * zero, so the caller must not pass one.
   */
  function ConvertCurrency(value: real, fromCode: string, toCode: string, rates: Dict<real>): (r: Option<real>)
    requires fromCode in Keys(rates) && toCode in Keys(rates) ==> Rate(rates, fromCode) != 0.0
    ensures r.Some? <==> fromCode in Keys(rates) && toCode in Keys(rates)
    ensures r.Some? ==> r.value * Rate(rates, fromCode) == value * Rate(rates, toCode)
    ensures r.Some? && Rate(rates, toCode) != 0.0 ==>
      r.value / Rate(rates, toCode) == value / Rate(rates, fromCode)
  {
    if fromCode in Keys(rates) && toCode in Keys(rates) then
      Some(Rescale(value, Rate(rates, fromCode), Rate(rates, toCode)))
    else
      None
  }

  /**
   * Worked examples: with USD at 1.0 and EUR at 0.9, 100 USD is 90 EUR; an
   * unlisted code, or an empty rate dict (a failed fetch), gives no result.
   */
  lemma CurrencyExamples()
    ensures ConvertCurrency(100.0, "USD", "EUR", [("USD", 1.0), ("EUR", 0.9)]) == Some(90.0)
    ensures ConvertCurrency(100.0, "XXX", "EUR", [("USD", 1.0), ("EUR", 0.9)]) == None
    ensures forall value, fromCode, toCode :: ConvertCurrency(value, fromCode, toCode, []) == None
  {
    var rates := [("USD", 1.0), ("EUR", 0.9)];
    assert Rate(rates, "USD") == 1.0;
    assert Rate(rates, "EUR") == 0.9 by {
      assert Keys(rates)[1] == "EUR";
      assert rates[1..] == [("EUR", 0.9)];
    }
    assert "XXX" !in Keys(rates);
  }

  /** Converting a listed code to itself gives the value back. */
  lemma CurrencyIdentity(value: real, code: string, rates: Dict<real>)
    requires code in Keys(rates) && Rate(rates, code) != 0.0
    ensures ConvertCurrency(value, code, code, rates) == Some(value)
  {
    RescaleIdentity(value, Rate(rates, code));
  }

  /** Converting there and back returns the original amount. */
  lemma CurrencyRoundTrip(value: real, fromCode: string, toCode: string, rates: Dict<real>)
    requires fromCode in Keys(rates) && toCode in Keys(rates)
    requires Rate(rates, fromCode) != 0.0 && Rate(rates, toCode) != 0.0
    ensures ConvertCurrency(ConvertCurrency(value, fromCode, toCode, rates).value, toCode, fromCode, rates) == Some(value)
  {
    RescaleRoundTrip(value, Rate(rates, fromCode), Rate(rates, toCode));
  }
}
