/**
 * What the converter's selectors offer and how a conversion request is
 * dispatched (the category and unit options of `main`, and its call of
 * convert_currency or convert_units). The exchange rates are a parameter:
 * they stand for whatever the rate fetch returned, an empty dict on failure.
 */
module Options {
  import opened Wrappers
  import opened Dicts
  import opened UnitTable
  import opened Temperature
  import opened Currency
  import opened Converter
  import opened StringOrder

  /**
   * The category selector's options: the table's categories together with
   * "Temperature" and "Currency", in Python's string order.
   */
  function CategoryOptions(): (categories: seq<string>)
    ensures Ordered(categories)
    ensures |categories| == |ConversionFactors| + 2
    ensures forall c :: c in categories <==>
      c in Keys(ConversionFactors) || c == "Temperature" || c == "Currency"
  {
    var categories := Sort(Keys(ConversionFactors) + ["Temperature", "Currency"]);
    assert forall c :: c in categories <==> c in multiset(Keys(ConversionFactors) + ["Temperature", "Currency"]);
    categories
  }

  /**
   * The unit selectors' options for a category: the three temperature
   * units; the codes of the fetched rates in Python's string order (none
   * after a failed fetch); or the category's units in table order (none for
   * a name the table does not list).
   */
  function UnitOptions(category: string, rates: Dict<real>): (units: seq<string>)
    ensures category == "Temperature" ==> units == TemperatureUnits
    ensures category == "Currency" ==> Ordered(units) && multiset(units) == multiset(Keys(rates))
    ensures category == "Currency" ==> forall u :: u in units <==> u in Keys(rates)
    ensures category != "Temperature" && category != "Currency" ==>
      |units| == |CategoryFactors(category)| &&
      forall i :: 0 <= i < |units| ==> units[i] == CategoryFactors(category)[i].0
    ensures category != "Temperature" && category != "Currency" ==>
      forall u :: u in units <==> InTable(category, u)
  {
    if category == "Temperature" then
      TemperatureUnits
    else if category == "Currency" then
      if |rates| > 0 then
        var codes := Sort(Keys(rates));
        assert forall u :: u in codes <==> u in multiset(Keys(rates));
        codes
      else
        []
    else
      Keys(CategoryFactors(category))
  }

  /** Every rate is non-zero, so no currency conversion divides by zero. */
  ghost predicate NonZeroRates(rates: Dict<real>)
  {
    forall i :: 0 <= i < |rates| ==> rates[i].1 != 0.0
  }

  /**
   * The conversion `main` performs for the selected category, units and
   * value. A conversion between two different units (or between two equal
   * units outside "Temperature") succeeds only for units the selectors offer
   * under the same rates.
   */
  function ConvertRequest(category: string, value: real, fromUnit: string, toUnit: string, rates: Dict<real>): (r: Option<real>)
    requires category == "Currency" && fromUnit in Keys(rates) && toUnit in Keys(rates) ==>
      Rate(rates, fromUnit) != 0.0
    ensures r.Some? && (category != "Temperature" || fromUnit != toUnit) ==>
      fromUnit in UnitOptions(category, rates) && toUnit in UnitOptions(category, rates)
  {
    if category == "Currency" then
      ConvertCurrency(value, fromUnit, toUnit, rates)
    else
      ConvertUnits(category, value, fromUnit, toUnit)
  }

  /**
   * Every pair of units the selectors offer for an offered category
   * converts, provided the conversion uses the same non-zero rates that
   * filled the selectors.
   */
  lemma OfferedPairsConvert(category: string, value: real, fromUnit: string, toUnit: string, rates: Dict<real>)
    requires category in CategoryOptions()
    requires fromUnit in UnitOptions(category, rates) && toUnit in UnitOptions(category, rates)
    requires NonZeroRates(rates)
    ensures ConvertRequest(category, value, fromUnit, toUnit, rates).Some?
  {
  }

  /**
   * `main` fetches the rates again for the conversion; when that second
   * fetch fails, even a pair the selectors offered gives no result. The
   * offered pair is only the scenario: an empty rate dict rejects every
   * pair (the last clause of `CurrencyExamples`).
   */
  lemma FailedRefetchRejectsOfferedPair(value: real, fromCode: string, toCode: string, offered: Dict<real>)
    requires fromCode in UnitOptions("Currency", offered) && toCode in UnitOptions("Currency", offered)
    ensures ConvertRequest("Currency", value, fromCode, toCode, []) == None
  {
  }

  /**
   * Only a failed rate fetch leaves the unit selectors empty: every other
   * offered category has at least one unit.
   */
  lemma UnitOptionsNonEmpty(category: string, rates: Dict<real>)
    requires category in CategoryOptions()
    ensures UnitOptions(category, rates) == [] <==> category == "Currency" && rates == []
  {
    TableWellFormed();
    if category != "Temperature" && category != "Currency" {
      var factors := CategoryFactors(category);
      assert InTable(category, factors[0].0);
    }
  }

  /**
   * For a table category the unit selectors start at the table's first
   * unit, which is the category's base unit (factor 1.0).
   */
  lemma DefaultUnitIsBase(category: string, rates: Dict<real>)
    requires category in Keys(ConversionFactors)
    ensures UnitOptions(category, rates) != []
    ensures InTable(category, UnitOptions(category, rates)[0])
    ensures TableFactor(category, UnitOptions(category, rates)[0]) == 1.0
  {
    TableWellFormed();
    var factors := CategoryFactors(category);
    assert UnitOptions(category, rates)[0] == factors[0].0;
    GetAt(factors, 0);
  }

  /**
   * Both unit selectors start at the first option, so the initial request
   * converts the value to itself, when the request uses the same non-zero
   * rates that filled the selectors.
   */
  lemma DefaultSelectionIsIdentity(category: string, value: real, rates: Dict<real>)
    requires category in CategoryOptions()
    requires UnitOptions(category, rates) != []
    requires NonZeroRates(rates)
    ensures var first := UnitOptions(category, rates)[0];
      ConvertRequest(category, value, first, first, rates) == Some(value)
  {
    var first := UnitOptions(category, rates)[0];
    if category == "Currency" {
      CurrencyIdentity(value, first, rates);
    } else if category != "Temperature" {
      TableIdentity(category, first, value);
    }
  }
}
