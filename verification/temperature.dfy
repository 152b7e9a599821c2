/**
 * The temperature converter (convert_temperature): six affine formulas
 * among Celsius, Fahrenheit and Kelvin, with the same-unit check first.
 */
module Temperature {
  import opened Wrappers

  /** TEMPERATURE_UNITS, in the order the unit selector lists them. */
  const TemperatureUnits: seq<string> := ["Celsius", "Fahrenheit", "Kelvin"]

  /**
   * Reference definition: a temperature in one of the three units, as
   * degrees Celsius.
   */
  function ToCelsius(value: real, unit: string): (celsius: real)
    requires unit in TemperatureUnits
  {
    if unit == "Celsius" then value
    else if unit == "Fahrenheit" then (value - 32.0) * 5.0 / 9.0
    else value - 273.15
  }

  /** Reference definition: degrees Celsius expressed in one of the three units. */
  function FromCelsius(celsius: real, unit: string): (value: real)
    requires unit in TemperatureUnits
  {
    if unit == "Celsius" then celsius
    else if unit == "Fahrenheit" then celsius * 9.0 / 5.0 + 32.0
    else celsius + 273.15
  }

  /**
   * Converts a temperature. Equal unit names give the value back, whatever
   * the names; otherwise both units must be temperature units, and the
   * result is the same temperature as the input, read in the target unit.
   */
  function ConvertTemperature(value: real, fromUnit: string, toUnit: string): (r: Option<real>)
    ensures fromUnit == toUnit ==> r == Some(value)
    ensures r.Some? <==> fromUnit == toUnit || (fromUnit in TemperatureUnits && toUnit in TemperatureUnits)
    ensures fromUnit in TemperatureUnits && toUnit in TemperatureUnits ==>
      r == Some(FromCelsius(ToCelsius(value, fromUnit), toUnit))
  {
    if fromUnit == toUnit then Some(value)
    else if fromUnit == "Celsius" && toUnit == "Fahrenheit" then Some((value * 9.0 / 5.0) + 32.0)
    else if fromUnit == "Fahrenheit" && toUnit == "Celsius" then Some((value - 32.0) * 5.0 / 9.0)
    else if fromUnit == "Celsius" && toUnit == "Kelvin" then Some(value + 273.15)
    else if fromUnit == "Kelvin" && toUnit == "Celsius" then Some(value - 273.15)
    else if fromUnit == "Fahrenheit" && toUnit == "Kelvin" then Some((value - 32.0) * 5.0 / 9.0 + 273.15)
    else if fromUnit == "Kelvin" && toUnit == "Fahrenheit" then Some((value - 273.15) * 9.0 / 5.0 + 32.0)
    else None
  }

  /** The formulas into and out of Celsius undo each other, in both orders. */
  lemma CelsiusInverse(celsius: real, unit: string)
    requires unit in TemperatureUnits
    ensures ToCelsius(FromCelsius(celsius, unit), unit) == celsius
    ensures FromCelsius(ToCelsius(celsius, unit), unit) == celsius
  {
  }

  /** Fixed points of the scales: freezing and boiling water, absolute zero. */
  lemma TemperatureSpotValues()
    ensures ConvertTemperature(0.0, "Celsius", "Fahrenheit") == Some(32.0)
    ensures ConvertTemperature(100.0, "Celsius", "Fahrenheit") == Some(212.0)
    ensures ConvertTemperature(0.0, "Celsius", "Kelvin") == Some(273.15)
    ensures ConvertTemperature(32.0, "Fahrenheit", "Celsius") == Some(0.0)
    ensures ConvertTemperature(0.0, "Kelvin", "Celsius") == Some(-273.15)
    ensures ConvertTemperature(-40.0, "Fahrenheit", "Celsius") == Some(-40.0)
  {
  }

  /**
   * Converting there and back returns the original temperature, for every
   * pair the converter accepts.
   */
  lemma TemperatureRoundTrip(value: real, fromUnit: string, toUnit: string)
    requires ConvertTemperature(value, fromUnit, toUnit).Some?
    ensures ConvertTemperature(ConvertTemperature(value, fromUnit, toUnit).value, toUnit, fromUnit) == Some(value)
  {
    if fromUnit != toUnit {
      CelsiusInverse(ToCelsius(value, fromUnit), toUnit);
    }
  }

  /**
   * The direct Fahrenheit/Kelvin formulas agree with going through Celsius.
   */
  lemma ViaCelsius(value: real)
    ensures ConvertTemperature(value, "Fahrenheit", "Kelvin")
         == ConvertTemperature(ConvertTemperature(value, "Fahrenheit", "Celsius").value, "Celsius", "Kelvin")
    ensures ConvertTemperature(value, "Kelvin", "Fahrenheit")
         == ConvertTemperature(ConvertTemperature(value, "Kelvin", "Celsius").value, "Celsius", "Fahrenheit")
  {
  }

  /**
   * Converting through any temperature unit equals converting directly.
   */
  lemma TemperatureCompose(value: real, fromUnit: string, viaUnit: string, toUnit: string)
    requires fromUnit in TemperatureUnits && viaUnit in TemperatureUnits && toUnit in TemperatureUnits
    ensures ConvertTemperature(ConvertTemperature(value, fromUnit, viaUnit).value, viaUnit, toUnit)
         == ConvertTemperature(value, fromUnit, toUnit)
  {
    CelsiusInverse(ToCelsius(value, fromUnit), viaUnit);
  }

  /** Every accepted conversion is strictly increasing in the value. */
  lemma TemperatureMonotone(value: real, other: real, fromUnit: string, toUnit: string)
    requires ConvertTemperature(value, fromUnit, toUnit).Some?
    ensures value < other <==>
      ConvertTemperature(value, fromUnit, toUnit).value < ConvertTemperature(other, fromUnit, toUnit).value
  {
  }
}
