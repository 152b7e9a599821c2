/**
 * The conversion dispatcher (convert_units): temperature has its own
 * formulas, currency is refused here, and every other category goes
 * through the factor table.
 */
module Converter {
  import opened Wrappers
  import opened Dicts
  import opened UnitTable
  import opened Rescaling
  import opened Temperature

  /** Both the category and the unit are listed in the factor table. */
  predicate InTable(category: string, unit: string)
  {
    category in Keys(ConversionFactors) && unit in Keys(CategoryFactors(category))
  }

  /** The factor of a unit the table lists. */
  function TableFactor(category: string, unit: string): (f: real)
    requires InTable(category, unit)
    ensures f > 0.0
    ensures (unit, f) in CategoryFactors(category)
  {
    Factor(CategoryFactors(category), unit)
  }

  /**
   * Converts a value between two units of a category. "Temperature" is
   * delegated to the temperature converter and "Currency" always fails;
   * any other category succeeds exactly when the table lists it with both
   * units, and then the result is the same amount of the category's base
   * unit as the input.
   */
  function ConvertUnits(category: string, value: real, fromUnit: string, toUnit: string): (r: Option<real>)
    ensures category == "Temperature" ==> r == ConvertTemperature(value, fromUnit, toUnit)
    ensures category == "Currency" ==> r == None
    ensures category != "Temperature" && category != "Currency" ==>
      (r.Some? <==> InTable(category, fromUnit) && InTable(category, toUnit))
    ensures InTable(category, fromUnit) && InTable(category, toUnit) ==> r.Some?
    ensures r.Some? && category != "Temperature" ==>
      r.value / TableFactor(category, toUnit) == value / TableFactor(category, fromUnit)
  {
    TableWellFormed();
    if category == "Temperature" then
      ConvertTemperature(value, fromUnit, toUnit)
    else if category == "Currency" then
      None
    else
      var factors := CategoryFactors(category);
      if fromUnit in Keys(factors) && toUnit in Keys(factors) then
        Some(Rescale(value, Factor(factors, fromUnit), Factor(factors, toUnit)))
      else
        None
  }

  /** Converting a table unit to itself gives the value back. */
  lemma TableIdentity(category: string, unit: string, value: real)
    requires InTable(category, unit)
    ensures ConvertUnits(category, value, unit, unit) == Some(value)
  {
    TableWellFormed();
    RescaleIdentity(value, TableFactor(category, unit));
  }

  /** Converting between two table units there and back returns the original value. */
  lemma TableRoundTrip(category: string, fromUnit: string, toUnit: string, value: real)
    requires InTable(category, fromUnit) && InTable(category, toUnit)
    ensures ConvertUnits(category, ConvertUnits(category, value, fromUnit, toUnit).value, toUnit, fromUnit)
         == Some(value)
  {
    TableWellFormed();
    RescaleRoundTrip(value, TableFactor(category, fromUnit), TableFactor(category, toUnit));
  }

  /** Converting through an intermediate unit of the category equals converting directly. */
  lemma TableCompose(category: string, fromUnit: string, viaUnit: string, toUnit: string, value: real)
    requires InTable(category, fromUnit) && InTable(category, viaUnit) && InTable(category, toUnit)
    ensures ConvertUnits(category, ConvertUnits(category, value, fromUnit, viaUnit).value, viaUnit, toUnit)
         == ConvertUnits(category, value, fromUnit, toUnit)
  {
    TableWellFormed();
    RescaleCompose(value, TableFactor(category, fromUnit), TableFactor(category, viaUnit), TableFactor(category, toUnit));
  }

  /** Table conversions preserve the order of values. */
  lemma TableMonotone(category: string, fromUnit: string, toUnit: string, value: real, other: real)
    requires InTable(category, fromUnit) && InTable(category, toUnit)
    ensures value <= other <==>
      ConvertUnits(category, value, fromUnit, toUnit).value <= ConvertUnits(category, other, fromUnit, toUnit).value
  {
    TableWellFormed();
    RescaleMonotone(value, other, TableFactor(category, fromUnit), TableFactor(category, toUnit));
  }

  /** Worked example: a kilometre is 1000 metres. */
  lemma KilometerInMeters()
    ensures ConvertUnits("Length", 1.0, "Kilometer", "Meter") == Some(1000.0)
  {
    var length := CategoryFactors("Length");
    assert length == ConversionFactors[0].1;
    assert Factor(length, "Kilometer") == 0.001 by {
      assert length[1] == ("Kilometer", 0.001);
      GetAt(length, 1);
    }
    assert Factor(length, "Meter") == 1.0 by {
      GetAt(length, 0);
    }
  }

  /**
   * Worked examples of failure: an unknown unit, an unknown category and
   * the currency category give no result.
   */
  lemma ConvertUnitsFailures()
    ensures ConvertUnits("Length", 5.0, "Meter", "Furlong") == None
    ensures ConvertUnits("Nonsense", 1.0, "a", "b") == None
    ensures ConvertUnits("Currency", 1.0, "USD", "USD") == None
  {
    assert "Furlong" !in Keys(CategoryFactors("Length")) by {
      assert CategoryFactors("Length") == ConversionFactors[0].1;
    }
    assert "Nonsense" !in Keys(ConversionFactors);
  }
}
