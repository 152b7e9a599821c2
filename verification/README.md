# Unit converter: a Dafny model of the conversion engine

This project models the conversion engine of a small Streamlit unit and currency
converter (`app.py`). The engine has four parts:

- **Unit table.** A static table of linear conversion factors, one entry per category
  (Length, Mass, Area, …). A unit's factor is the number of those units in one base
  unit of its category.
- **Temperature converter.** Six affine formulas among Celsius, Fahrenheit and Kelvin.
  The same-unit check comes first.
- **Currency converter.** The table's divide-then-multiply rule, applied with rates
  that the caller supplies.
- **Dispatcher.** It routes a category to one of the converters above. Every failure
  is Python's `None`, modelled as `Option<real>`.

The model also covers what `main` offers in its selectors and how it dispatches a
request:

- the category list, `sorted(...)` over the table's keys plus "Temperature" and "Currency";
- the unit list for each category;
- the currency path's use of freshly fetched rates.

The exchange rates are a parameter of the model. They stand for whatever the rate
fetch returned, which is an empty dict on failure.

Python dicts keep insertion order, and the unit selector shows that order. So every
dict is modelled as its entries in order, `seq<(string, V)>` (module `Dicts`):

- `Get` models `d.get(k)`, `k in d` and `d[k]`;
- `Keys` models `list(d.keys())`.

`UnitTable.TableWellFormed` proves four facts about the table:

- no category name appears twice, and no unit name appears twice within a category;
- each category's first unit is its base unit, with factor 1.0;
- every factor is strictly positive;
- "Temperature" and "Currency" are not table keys.

Arithmetic is over Dafny's exact `real`. So identity, round trip, composition and
inverse formulas hold exactly. Python computes them in floating point.

The code signals every failure with a single `None`, and so does the model. An
unknown category or an unlisted temperature pair gives `None`. In the temperature
converter, equal unit names give the value back even when they are not temperature
units.

## Model

| member | source | states |
|---|---|---|
| `Dicts.Keys` | app.py:229 | `list(d.keys())` lists every key, in insertion order, one per entry |
| `Dicts.Get` | app.py:151-154 | a lookup succeeds exactly when the key is among the dict's keys, and returns a value the dict holds under that key |
| `Dicts.GetAt` | app.py:152-154 | in a dict with distinct keys, looking up the i-th key gives the i-th value |
| `UnitTable.TableWellFormed` | app.py:13-121 | no category or unit name in the table is repeated; each category's first unit is its base unit (factor 1.0); every factor is strictly positive; "Temperature" and "Currency" are not table keys |
| `UnitTable.CategoryFactors` | app.py:151 | `CONVERSION_FACTORS.get(category, {})` gives the well-formed units of a table category, and no units for any other name |
| `UnitTable.Factor` | app.py:153-154 | a listed unit's factor is a strictly positive value the category holds for that unit, so the division is defined |
| `Rescaling.Rescale` | app.py:153-154 | `value / f[from] * f[to]` is the same amount of the base unit as `value`: `r * f[from] == value * f[to]`, so `r / f[to] == value / f[from]` for a non-zero target factor, and a zero target factor gives zero |
| `Rescaling.RescaleIdentity` | app.py:153-154 | dividing and multiplying by the same factor gives the value back |
| `Rescaling.RescaleRoundTrip` | app.py:153-154 | rescaling there and back gives the original value |
| `Rescaling.RescaleCompose` | app.py:153-154 | rescaling through an intermediate factor equals rescaling directly |
| `Rescaling.RescaleMonotone` | app.py:153-154 | with positive factors, rescaling preserves the order of values in both directions |
| `Temperature.ConvertTemperature` | app.py:126-141 | equal unit names give the value unchanged, even for names that are not temperature units; otherwise the result exists exactly when both units are among Celsius, Fahrenheit and Kelvin, and it equals the reference conversion through Celsius |
| `Temperature.CelsiusInverse` | app.py:129-136 | the formulas into and out of Celsius are mutual inverses for every unit: each composition, in either order, is the identity |
| `Temperature.TemperatureSpotValues` | app.py:129-136 | 0 °C = 32 °F, 100 °C = 212 °F, 0 °C = 273.15 K, 32 °F = 0 °C, 0 K = −273.15 °C, −40 °F = −40 °C |
| `Temperature.TemperatureRoundTrip` | app.py:127-140 | for every accepted pair, converting there and back returns the original value |
| `Temperature.ViaCelsius` | app.py:131-140 | Fahrenheit→Kelvin equals Fahrenheit→Celsius then Celsius→Kelvin; Kelvin→Fahrenheit equals Kelvin→Celsius then Celsius→Fahrenheit |
| `Temperature.TemperatureCompose` | app.py:129-140 | converting through any temperature unit equals converting directly |
| `Temperature.TemperatureMonotone` | app.py:129-140 | every accepted conversion is strictly increasing in the value |
| `Currency.Rate` | app.py:180-181 | `rates[code]` is the value the rate dict holds under the code |
| `Currency.ConvertCurrency` | app.py:178-182 | the result exists exactly when both codes are in `rates`, so an empty `rates` always gives `None`; it is the same amount of the pivot currency as the input: `r * rates[from] == value * rates[to]` (zero for a zero target rate), i.e. `r / rates[to] == value / rates[from]` when the target rate is non-zero |
| `Currency.CurrencyExamples` | app.py:178-182 | with USD 1.0 and EUR 0.9, 100 USD → 90 EUR; an unlisted code gives `None`; an empty rate dict always gives `None` |
| `Currency.CurrencyIdentity` | app.py:178-182 | converting a listed code with a non-zero rate to itself gives the value back |
| `Currency.CurrencyRoundTrip` | app.py:178-182 | with non-zero rates, converting there and back returns the original amount |
| `Converter.TableFactor` | app.py:152-154 | a unit the table lists has a strictly positive factor, the one the category's entry holds for that unit |
| `Converter.ConvertUnits` | app.py:143-155 | "Temperature" equals the temperature converter; "Currency" is always `None`; any other category succeeds exactly when the table lists it with both units, and the result is the same amount of the base unit as the input |
| `Converter.TableIdentity` | app.py:151-154 | converting a table unit to itself gives the value unchanged |
| `Converter.TableRoundTrip` | app.py:151-154 | converting between two table units there and back gives the original value |
| `Converter.TableCompose` | app.py:151-154 | converting through an intermediate unit of the category equals converting directly |
| `Converter.TableMonotone` | app.py:151-154 | table conversions preserve the order of values in both directions |
| `Converter.KilometerInMeters` | app.py:17-26 | 1 Kilometer converts to exactly 1000 Meter |
| `Converter.ConvertUnitsFailures` | app.py:143-155 | an unknown unit ("Furlong"), an unknown category and "Currency" all give `None` |
| `StringOrder.LexLeReflexive` | app.py:219 | Python's string order is reflexive |
| `StringOrder.LexLeTotal` | app.py:219 | Python's string order relates any two strings one way or the other |
| `StringOrder.LexLeTransitive` | app.py:219 | Python's string order is transitive |
| `StringOrder.LexLeAntisymmetric` | app.py:219 | two strings that are each no greater than the other are equal |
| `StringOrder.Insert` | app.py:219 | inserting into an ordered list keeps it ordered and adds exactly the new string |
| `StringOrder.Sort` | app.py:219 | `sorted` returns an ordered list holding the same strings with the same multiplicities |
| `StringOrder.OrderedPairwise` | app.py:219 | in an ordered list every string is no greater than every later one |
| `StringOrder.OrderedHeadLeast` | app.py:219 | the first string of an ordered list is no greater than any string in it |
| `StringOrder.OrderedPermutationUnique` | app.py:219 | two ordered lists with the same strings are equal, so `Sort` is the only sorting |
| `Options.CategoryOptions` | app.py:219 | the category selector lists the table's categories plus "Temperature" and "Currency", in string order; its length is the number of table categories plus two |
| `Options.UnitOptions` | app.py:223-229 | the unit selector offers the three temperature units for "Temperature"; for "Currency", the fetched codes in string order, each exactly as often as the rate dict lists it (none after a failed fetch); for any other category, exactly the units the table lists for it, in table order |
| `Options.ConvertRequest` | app.py:235-240 | a conversion that succeeds between two different units (or equal units outside "Temperature") uses units the selectors offer under the same rates |
| `Options.OfferedPairsConvert` | app.py:219-240 | every unit pair offered for an offered category converts, when the conversion uses the same non-zero rates that filled the selectors |
| `Options.FailedRefetchRejectsOfferedPair` | app.py:226-238 | because the rates are fetched again for the conversion, a failed second fetch gives `None` even for an offered currency pair (an empty rate dict rejects every pair) |
| `Options.UnitOptionsNonEmpty` | app.py:223-229 | an offered category's unit list is empty exactly for "Currency" with an empty rate dict |
| `Options.DefaultUnitIsBase` | app.py:229-232 | for a table category both unit selectors start at the table's first unit, the category's base unit with factor 1.0 |
| `Options.DefaultSelectionIsIdentity` | app.py:231-240 | both unit selectors start at the first option, so the initial request converts the value to itself, when the request uses the same non-zero rates that filled the selectors (a failed refetch gives `None` instead; see `FailedRefetchRejectsOfferedPair`) |
| `FuelEconomy.FuelEconomyEntry` | app.py:108-112 | the table's "Fuel Economy" entry is L/100km 1.0, mpg (US) 0.00425144, km/L 0.01 |
| `FuelEconomy.FuelEconomyFactors` | app.py:108-112 | the fuel-economy entry lists exactly three units, with those factors |
| `FuelEconomy.FuelEconomyUnits` | app.py:108-112 | the table lists exactly those three fuel-economy units, with those factors |
| `FuelEconomy.LinearFuelEconomyAsWritten` | app.py:108-112 | as written, 5 L/100km converts to 0.05 km/L (not 20), and 1 km/L to 0.425144 mpg (not about 2.352) |
| `FuelEconomy.Reciprocal` | app.py:108-112 | a reciprocal-unit reading is non-zero, and its factor times it is the reciprocal of the consumption |
| `FuelEconomy.ReciprocalInvolution` | app.py:108-112 | taking the reciprocal reading twice gives the value back |
| `FuelEconomy.ToConsumption` | app.py:108-112 | a non-zero fuel-economy reading corresponds to a non-zero consumption |
| `FuelEconomy.FromConsumption` | app.py:108-112 | reading a consumption in a unit and converting back gives the same consumption |
| `FuelEconomy.ConvertFuelEconomy` | app.py:108-112 | the corrected conversion exists for listed units with a non-zero value (or equal units); it preserves the consumption, and equal units give the value back |
| `FuelEconomy.FuelEconomyCorrected` | app.py:108-112 | corrected: 5 L/100km = 20 km/L, 20 km/L = 5 L/100km, 1 km/L = 0.01 / 0.00425144 mpg |
| `FuelEconomy.FuelEconomyRoundTrip` | app.py:108-112 | the corrected conversion of a non-zero reading, there and back, returns it |

## Findings

| source | as written | input that shows it | evidently intended | confidence | as-written member | corrected member |
|---|---|---|---|---|---|---|
| app.py:108-112 | "Fuel Economy" goes through the linear divide-then-multiply rule. But km/L and mpg (US) measure distance per volume, so they are reciprocal to L/100km, not proportional to it. | 5 L/100km → km/L gives 0.05. 1 km/L → mpg (US) gives 0.425144. | 5 L/100km = 20 km/L, since litres per 100 km times km per litre is 100. 1 km/L ≈ 2.352 mpg. The factors are the reciprocal constants 1/100 and 1/235.215. | not executed; high | `FuelEconomy.LinearFuelEconomyAsWritten` | `FuelEconomy.ConvertFuelEconomy` |

The dispatcher `Converter.ConvertUnits` models the code as written.
`FuelEconomy.ConvertFuelEconomy` is the corrected conversion, and its properties are
proved alongside it.

## Left out

- The exchange-rate fetch (app.py:160-176) is an HTTP request with JSON parsing and
  error display. The model takes the returned `rates` as a parameter.
- The language-model assistant (app.py:187-207) is left out: it is a foreign API call,
  unrelated to conversion.
- API-key loading from secrets and the environment (app.py:7-8) is configuration I/O
  and is left out.
- Streamlit widgets, page layout, success and error messages, and the `:.4f` result
  formatting are left out (app.py:212-277). The model covers what the selectors
  offer and which conversion a request runs, not how they are displayed.
- `main` runs the same conversion twice: once for the sidebar button and once for the
  main area. The model has one request function, since both calls are identical.
- Floating point: all arithmetic is over exact reals, and table constants written as
  `1e-6` and the like are the exact decimals. The model claims nothing about
  bit-exact agreement with Python floats.
- ConvertCurrency: Python raises `ZeroDivisionError` when the source currency's rate
  is zero. The model instead requires that rate to be non-zero rather than modelling
  the exception.
- Dicts.Get: returns the first entry with the key, whereas a Python dict literal with
  a repeated key keeps the last. The table's keys are proved distinct, so the two
  agree there. A rate dict is taken as any entry list, repeated codes included; it
  agrees with Python's dict whenever its codes are distinct, which the keys of a
  parsed JSON object always are.
- Options.CategoryOptions: states the order, membership and length of the category
  list. It does not spell out the fifteen names in their sorted order.
- The values that Streamlit's number input produces are modelled as arbitrary reals.
