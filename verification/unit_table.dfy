/**
 * The static table of linear conversion factors (CONVERSION_FACTORS). For
 * each category one unit is the base unit, with factor 1.0, and the factor
 * of every unit is the number of those units in one base unit.
 */
module UnitTable {
  import opened Wrappers
  import opened Dicts

  /** Category name -> (unit name -> units per one base unit), in source order. */
  const ConversionFactors: Dict<Dict<real>> := [
    ("Length", [
      ("Meter", 1.0),
      ("Kilometer", 0.001),
      ("Centimeter", 100.0),
      ("Millimeter", 1000.0),
      ("Mile", 0.000621371),
      ("Yard", 1.09361),
      ("Foot", 3.28084),
      ("Inch", 39.3701)
    ]),
    ("Mass", [
      ("Kilogram", 1.0),
      ("Gram", 1000.0),
      ("Milligram", 1e6),
      ("Pound", 2.20462),
      ("Ounce", 35.274)
    ]),
    ("Area", [
      ("Square meter", 1.0),
      ("Square kilometer", 1e-6),
      ("Square centimeter", 10000.0),
      ("Square foot", 10.7639),
      ("Square yard", 1.19599),
      ("Square inch", 1550.0),
      ("Acre", 0.000247105),
      ("Hectare", 0.0001)
    ]),
    ("Volume", [
      ("Liter", 1.0),
      ("Milliliter", 1000.0),
      ("Cubic meter", 0.001),
      ("US gallon", 0.264172),
      ("US quart", 1.05669),
      ("US pint", 2.11338),
      ("US cup", 4.16667),
      ("Fluid ounce", 33.814)
    ]),
    ("Time", [
      ("Second", 1.0),
      ("Millisecond", 1000.0),
      ("Microsecond", 1e6),
      ("Minute", 0.0166667),
      ("Hour", 0.000277778),
      ("Day", 1.1574e-5),
      ("Week", 1.6534e-6)
    ]),
    ("Speed", [
      ("Meter per second", 1.0),
      ("Kilometer per hour", 3.6),
      ("Mile per hour", 2.23694),
      ("Foot per second", 3.28084),
      ("Knot", 1.94384)
    ]),
    ("Pressure", [
      ("Pascal", 1.0),
      ("Kilopascal", 0.001),
      ("Bar", 1e-5),
      ("PSI", 0.000145038),
      ("Atmosphere", 9.86923e-6)
    ]),
    ("Energy", [
      ("Joule", 1.0),
      ("Kilojoule", 0.001),
      ("Calorie", 0.239006),
      ("Kilocalorie", 0.000239006),
      ("Watt-hour", 0.000277778),
      ("Kilowatt-hour", 2.77778e-7),
      ("BTU", 0.000947817)
    ]),
    ("Data Transfer Rate", [
      ("bit/s", 1.0),
      ("Kilobit/s", 0.001),
      ("Megabit/s", 1e-6),
      ("Gigabit/s", 1e-9),
      ("Byte/s", 0.125),
      ("Kilobyte/s", 0.000125)
    ]),
    ("Digital Storage", [
      ("Byte", 1.0),
      ("Bit", 8.0),
      ("Kilobyte", 0.0009765625),
      ("Megabyte", 9.5367e-7),
      ("Gigabyte", 9.3132e-10),
      ("Terabyte", 9.0949e-13)
    ]),
    ("Frequency", [
      ("Hertz", 1.0),
      ("Kilohertz", 0.001),
      ("Megahertz", 1e-6),
      ("Gigahertz", 1e-9)
    ]),
    ("Fuel Economy", [
      ("L/100km", 1.0),
      ("mpg (US)", 0.00425144),
      ("km/L", 0.01)
    ]),
    ("Plane Angle", [
      ("Degree", 1.0),
      ("Radian", 0.0174533),
      ("Gradian", 1.11111),
      ("Arcminute", 60.0),
      ("Arcsecond", 3600.0)
    ])
  ]

  /**
   * The factors of one category: the base unit (factor 1.0) comes first,
   * no unit is listed twice and every factor is strictly positive.
   */
  ghost predicate WellFormedFactors(factors: Dict<real>)
  {
    && |factors| > 0
    && factors[0].1 == 1.0
    && DistinctKeys(factors)
    && forall i :: 0 <= i < |factors| ==> factors[i].1 > 0.0
  }

  /** No category is listed twice and every category is well formed. */
  ghost predicate WellFormed(table: Dict<Dict<real>>)
  {
    && DistinctKeys(table)
    && forall k :: 0 <= k < |table| ==> WellFormedFactors(table[k].1)
  }

  /**
   * The table is well formed, so the division by a factor is always
   * defined, and the two categories handled separately are not table keys,
   * so the dispatch on the category name is unambiguous.
   */
  lemma TableWellFormed()
    ensures WellFormed(ConversionFactors)
    ensures "Temperature" !in Keys(ConversionFactors)
    ensures "Currency" !in Keys(ConversionFactors)
  {
    CategoryNamesDistinct();
    CategoriesWellFormed();
    SpecialCategoriesAbsent();
  }

  // The table's facts are split over small lemmas to keep each proof cheap.

  lemma CategoriesWellFormed()
    ensures forall k :: 0 <= k < |ConversionFactors| ==> WellFormedFactors(ConversionFactors[k].1)
  {
    BaseUnitsAndPositiveFactors();
    UnitNamesDistinct();
  }

  lemma BaseUnitsAndPositiveFactors()
    ensures forall k :: 0 <= k < |ConversionFactors| ==>
      var factors := ConversionFactors[k].1;
      |factors| > 0 && factors[0].1 == 1.0 && forall i :: 0 <= i < |factors| ==> factors[i].1 > 0.0
  {
  }

  lemma UnitNamesDistinct()
    ensures forall k :: 0 <= k < |ConversionFactors| ==> DistinctKeys(ConversionFactors[k].1)
  {
    LeadingUnitNamesDistinct();
    TrailingUnitNamesDistinct();
  }

  lemma LeadingUnitNamesDistinct()
    ensures forall k :: 0 <= k < 7 ==> DistinctKeys(ConversionFactors[k].1)
  {
  }

  lemma TrailingUnitNamesDistinct()
    ensures forall k :: 7 <= k < |ConversionFactors| ==> DistinctKeys(ConversionFactors[k].1)
  {
  }

  lemma CategoryNamesDistinct()
    ensures DistinctKeys(ConversionFactors)
  {
  }

  lemma SpecialCategoriesAbsent()
    ensures "Temperature" !in Keys(ConversionFactors)
    ensures "Currency" !in Keys(ConversionFactors)
  {
  }

  /**
   * `CONVERSION_FACTORS.get(category, {})`: the units of a table category,
   * and no units for any other name.
   */
  function CategoryFactors(category: string): (factors: Dict<real>)
    ensures category !in Keys(ConversionFactors) ==> factors == []
    ensures category in Keys(ConversionFactors) ==>
      WellFormedFactors(factors) && (category, factors) in ConversionFactors
  {
    TableWellFormed();
    match Get(ConversionFactors, category)
    case Some(factors) => factors
    case None => []
  }

  /** The factor of a unit listed in well-formed factors is strictly positive. */
  function Factor(factors: Dict<real>, unit: string): (f: real)
    requires WellFormedFactors(factors) && unit in Keys(factors)
    ensures f > 0.0
    ensures (unit, f) in factors
  {
    Get(factors, unit).value
  }
}
