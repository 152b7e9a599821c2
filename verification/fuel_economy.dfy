/**
 * Fuel economy. The table lists "L/100km" (litres burnt per 100 km) as the
 * base with "mpg (US)" and "km/L" beside it, but the last two measure
 * distance per volume: they are reciprocal to the first, not proportional,
 * so the table's divide-then-multiply rule gives wrong results for this
 * category. This module shows the rule as written giving them, and
 * defines the reciprocal conversion the factors evidently stand for.
 */
module FuelEconomy {
  import opened Wrappers
  import opened Dicts
  import opened UnitTable
  import opened Converter

  const FuelEconomyCategory := "Fuel Economy"

  /** The fuel-economy entry of the table, looked up by name. */
  lemma FuelEconomyEntry()
    ensures FuelEconomyCategory in Keys(ConversionFactors)
    ensures CategoryFactors(FuelEconomyCategory)
         == [("L/100km", 1.0), ("mpg (US)", 0.00425144), ("km/L", 0.01)]
  {
    TableWellFormed();
    GetAt(ConversionFactors, 11);
  }

  /** The units and factors the table lists for fuel economy. */
  lemma FuelEconomyUnits()
    ensures forall u :: InTable(FuelEconomyCategory, u) <==> u == "L/100km" || u == "mpg (US)" || u == "km/L"
    ensures InTable(FuelEconomyCategory, "L/100km") && TableFactor(FuelEconomyCategory, "L/100km") == 1.0
    ensures InTable(FuelEconomyCategory, "mpg (US)") && TableFactor(FuelEconomyCategory, "mpg (US)") == 0.00425144
    ensures InTable(FuelEconomyCategory, "km/L") && TableFactor(FuelEconomyCategory, "km/L") == 0.01
  {
    FuelEconomyEntry();
    FuelEconomyFactors(CategoryFactors(FuelEconomyCategory));
  }

  lemma FuelEconomyFactors(factors: Dict<real>)
    requires factors == [("L/100km", 1.0), ("mpg (US)", 0.00425144), ("km/L", 0.01)]
    ensures forall u :: u in Keys(factors) <==> u == "L/100km" || u == "mpg (US)" || u == "km/L"
    ensures Get(factors, "L/100km") == Some(1.0)
    ensures Get(factors, "mpg (US)") == Some(0.00425144)
    ensures Get(factors, "km/L") == Some(0.01)
  {
    assert Keys(factors) == ["L/100km", "mpg (US)", "km/L"];
    GetAt(factors, 1);
    GetAt(factors, 2);
  }

  /**
   * As written: 5 L/100km comes out as 0.05 km/L, although a car that burns
   * 5 litres per 100 km covers 20 km per litre (consumption times km/L is
   * always 100); and 1 km/L comes out as 0.425144 mpg instead of about 2.352.
   */
  lemma LinearFuelEconomyAsWritten()
    ensures ConvertUnits(FuelEconomyCategory, 5.0, "L/100km", "km/L") == Some(0.05)
    ensures ConvertUnits(FuelEconomyCategory, 5.0, "L/100km", "km/L").value * 5.0 != 100.0
    ensures ConvertUnits(FuelEconomyCategory, 1.0, "km/L", "mpg (US)") == Some(0.425144)
  {
    FuelEconomyUnits();
  }

  /** A reading in a reciprocal unit with factor `factor`, for the consumption `value`, and back. */
  function Reciprocal(value: real, factor: real): (r: real)
    requires value != 0.0 && factor > 0.0
    ensures r != 0.0
    ensures factor * r == 1.0 / value
  {
    assert factor * value != 0.0;
    1.0 / (factor * value)
  }

  /** The reciprocal reading is its own inverse. */
  lemma ReciprocalInvolution(value: real, factor: real)
    requires value != 0.0 && factor > 0.0
    ensures Reciprocal(Reciprocal(value, factor), factor) == value
  {
  }

  /**
   * Reference definition: a non-zero fuel-economy reading as litres per
   * 100 km. A reciprocal unit with factor f reads 1 / (f * c) for the
   * consumption c; L/100km reads c itself.
   */
  function ToConsumption(value: real, unit: string): (c: real)
    requires InTable(FuelEconomyCategory, unit) && value != 0.0
    ensures c != 0.0
  {
    if unit == "L/100km" then value
    else Reciprocal(value, TableFactor(FuelEconomyCategory, unit))
  }

  /** Reference definition: a non-zero consumption read in a fuel-economy unit. */
  function FromConsumption(consumption: real, unit: string): (v: real)
    requires InTable(FuelEconomyCategory, unit) && consumption != 0.0
    ensures v != 0.0
    ensures ToConsumption(v, unit) == consumption
  {
    if unit == "L/100km" then consumption
    else
      ReciprocalInvolution(consumption, TableFactor(FuelEconomyCategory, unit));
      Reciprocal(consumption, TableFactor(FuelEconomyCategory, unit))
  }

  /**
   * The conversion the fuel-economy factors stand for: both units must be
   * listed; equal units give the value back; otherwise the value must be
   * non-zero (a zero reading has no reciprocal) and the result is the
   * reading of the same consumption in the target unit.
   */
  function ConvertFuelEconomy(value: real, fromUnit: string, toUnit: string): (r: Option<real>)
    ensures r.Some? <==>
      InTable(FuelEconomyCategory, fromUnit) && InTable(FuelEconomyCategory, toUnit) && (fromUnit == toUnit || value != 0.0)
    ensures r.Some? && fromUnit == toUnit ==> r.value == value
    ensures r.Some? && value != 0.0 ==> r.value != 0.0 && ToConsumption(r.value, toUnit) == ToConsumption(value, fromUnit)
  {
    if !(InTable(FuelEconomyCategory, fromUnit) && InTable(FuelEconomyCategory, toUnit)) then None
    else if fromUnit == toUnit then Some(value)
    else if value == 0.0 then None
    else Some(FromConsumption(ToConsumption(value, fromUnit), toUnit))
  }

  /** The corrected conversion gives the expected readings. */
  lemma FuelEconomyCorrected()
    ensures ConvertFuelEconomy(5.0, "L/100km", "km/L") == Some(20.0)
    ensures ConvertFuelEconomy(20.0, "km/L", "L/100km") == Some(5.0)
    ensures ConvertFuelEconomy(1.0, "km/L", "mpg (US)") == Some(0.01 / 0.00425144)
  {
    FuelEconomyUnits();
  }

  /** Converting a non-zero reading there and back returns it. */
  lemma FuelEconomyRoundTrip(value: real, fromUnit: string, toUnit: string)
    requires InTable(FuelEconomyCategory, fromUnit) && InTable(FuelEconomyCategory, toUnit) && value != 0.0
    ensures ConvertFuelEconomy(ConvertFuelEconomy(value, fromUnit, toUnit).value, toUnit, fromUnit) == Some(value)
  {
    if fromUnit != toUnit && fromUnit != "L/100km" {
      ReciprocalInvolution(value, TableFactor(FuelEconomyCategory, fromUnit));
    }
  }
}
