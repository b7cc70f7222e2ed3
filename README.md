# Cheffrey's measurement and ingredient engine, in Dafny

This project models the cooking-measurement engine of the Cheffrey recipe
application and proves properties of that model. The engine has two parts.

- `sugarcube`, a small dimensional-analysis library (`src/sugarcube.py`):
  - converters to and from a measure's base unit;
  - units, grouped into measures (Mass, Volume, Temperature, Length, Time,
    Count) that keep a registry of unit names;
  - amounts, which are a value in a unit;
  - elements, which are substances with an optional density;
  - ingredients, which are an amount of an element;
  - the density transforms between Volume and Mass;
  - the static catalog of SI and US cooking units;
  - the `available_measures` lookup table.
- `cheffrey`, the recipe logic built on it (`src/cheffrey.py`):
  - ingredient `+` and `*`, with type checks;
  - the shopping list, which merges the ingredients of several recipes by
    element name;
  - `present`, which shows an amount as a whole number of the best-fitting
    unit plus a fraction in eighths.

Files:

- `results.dfy`: `Result` and `Option`. Python's exceptions become `Err` values
  carrying the exception kind: TypeError, ValueError, AttributeError,
  ZeroDivisionError or IndexError.
- `ordered_dict.dfy`: Python's insertion-ordered `dict`, as a key sequence
  plus a map. It also models `update` and `dict(a, **b, **c)`.
- `sugarcube.dfy`: `Converter`, `Unit`, `Element`, `Amount`, `Ingredient` and
  `Transform`, as datatypes with pure functions. `Measure` is a class:
  - `units` and `transforms` are fields that `AddUnit`, `AddUnits` and
    `AddTransform` update in place;
  - the loops over units and alternate names are `while` loops with
    invariants.
- `conversion_laws.dfy`: every invertible converter (a nonzero factor under
  any number of reverses) is affine with a nonzero slope. A zero factor under
  a reverse divides by zero, so that converter is not affine. Conversion between invertible units round-trips and does
  not depend on the path taken. For a nonzero density, the two density
  transforms undo each other in both directions.
- `catalog.dfy`: the module's load-time statements, as methods that build the
  six measures. It contains the exact registries they end with,
  `available_measures`, and the documented conversions.
- `cheffrey.dfy`:
  - ingredient arithmetic;
  - `create_shopping_list`, a method with nested loops proved equal to a fold,
    `Aggregate`;
  - the fold's specification: keys, first-seen units, sums, and when it
    fails;
  - `present`, both as written and corrected (see Findings).

Python's run-time type tests (`isinstance`) are modelled by the `Value` and
`Operand` datatypes. Values are exact reals.

`present` requires that an ingredient's measure satisfies
`Measure.Valid()`. This is the registry invariant every constructor and
`addUnit` call keeps: the dict is well formed, and every registered unit
points back to its measure.

Several docstrings in `src/sugarcube.py` still show a 240 ml cup and a
quarter-pound stick. The model uses the constants the code defines instead:
- `CUP_IN_LITER = 0.236588`;
- a stick with the neutral converter, so one stick is one gram.

For those constants, the model proves that a cup of flour is 165.6116 g and a
stick of butter is 1 g.

## Model

| member | source | states |
|---|---|---|
| OrderedDict.Empty | src/cheffrey.py:169 | `{}` is a well-formed dict with no keys |
| OrderedDict.Put | src/sugarcube.py:210-212 | `d[k] = v` maps k to v; an existing key keeps its place, a new key is appended; well-formedness is kept |
| OrderedDict.PutAllLookup | src/sugarcube.py:211-212 | storing one value under a list of keys: the old keys stay first, exactly the old keys and the listed keys are present, listed keys map to the value and the others keep theirs |
| OrderedDict.Values | src/cheffrey.py:40 | `d.values()` lists the value of each key in key order |
| OrderedDict.UpdateKeysLookup | src/sugarcube.py:490-491 | updating with some keys of another dict: old keys keep their places, the result's keys are the union, updated keys take the other dict's value |
| OrderedDict.UpdateLookup | src/sugarcube.py:490-491 | `d.update(e)`: keys are the union, `e` wins on shared keys, `d`'s keys stay first in their order |
| OrderedDict.UpdateKeysUnchanged | src/sugarcube.py:490-491 | an update whose entries are already present with equal values changes nothing |
| OrderedDict.UpdateKeysPrefix | src/sugarcube.py:490-491 | an update never reorders or removes existing keys |
| Sugarcube.Unit.Times | src/sugarcube.py:315-320 | `n * unit` is an amount of n in that unit exactly when n is a number; any other operand gives None |
| Sugarcube.Amount.ToBaseUnit | src/sugarcube.py:133-135 | the result is `toBase(value)` in the measure's base unit; `toBase` runs first, so its error comes before the AttributeError of a unit without a measure |
| ConversionLaws.ToBaseUnitAffine | src/sugarcube.py:130-135 | for an invertible unit, `toBaseUnit` succeeds with value·slope + offset in the base unit; for a unit other than the base unit it equals `to(baseUnit)` and gives the base value `to` goes through |
| Sugarcube.Amount.To | src/sugarcube.py:104-131 | a non-unit argument is a TypeError; the same unit returns the amount itself; a unit of another measure is a TypeError (AttributeError when a measure is missing); a success is in the target unit of the same measure |
| Sugarcube.Amount.Times | src/sugarcube.py:137-154 | an element makes an ingredient of this amount, a number scales the value in the same unit, anything else is a TypeError |
| Sugarcube.Amount.DividedBy | src/sugarcube.py:156-166 | dividing succeeds exactly for a nonzero number, keeps the unit, and the result times the divisor is the original value; zero is a ZeroDivisionError; a non-number is a TypeError |
| Sugarcube.Transform.Apply | src/sugarcube.py:391-396 | a density transform fails for an element without a density and yields an amount in the target unit |
| Sugarcube.Ingredient.To | src/sugarcube.py:67-79 | the element is kept; a Measure means its base unit; a unit of the same measure delegates to `Amount.to`; a success is in the requested unit; a non-unit is an AttributeError |
| Sugarcube.Ingredient.Transform | src/sugarcube.py:84-88 | no registered transform between the measures is a ValueError; a missing source or target measure is an AttributeError; a success keeps the element and is in the requested unit |
| Sugarcube.Measure.BaseUnit | src/sugarcube.py:190-193 | the base unit is the constructor's unit, registered in this measure |
| Sugarcube.Measure.constructor | src/sugarcube.py:184-194 | a new measure has the given name, its base unit registered under its names, no transforms, and satisfies the registry invariant |
| Sugarcube.Measure.AddUnit | src/sugarcube.py:196-213 | a name already registered is a ValueError and leaves the registry alone; otherwise the unit, now belonging to this measure, is stored under its name and all alternate names; the invariant is kept |
| Sugarcube.Measure.AddUnits | src/sugarcube.py:215-223 | adds the units in order and stops at the first ValueError, leaving the units before it registered (`RegisterAll`) |
| Sugarcube.Measure.TransformTo | src/sugarcube.py:225-231 | returns the registered transform exactly when one is registered for the target measure; otherwise a ValueError, or an AttributeError when the target is None (its `.name` is read) |
| Sugarcube.Measure.AddTransform | src/sugarcube.py:233-236 | the first transform registered for a target measure is kept, later ones are ignored, no other entry changes |
| Sugarcube.WithUnitLookup | src/sugarcube.py:210-212 | registering a unit adds exactly its name and alternate names, all mapping to it; other keys keep their units |
| Sugarcube.RegisterFrom | src/sugarcube.py:221-223 | a unit whose name is free registers and the loop goes on with the next unit |
| Sugarcube.SIUnitsFromUnit | src/sugarcube.py:326-351 | six units milli- to kilo-: prefixed name and abbreviation, factors 0.001 to 1000, same display side, no measure yet |
| ConversionLaws.Slope | src/sugarcube.py:262-269 | the slope of an invertible converter is nonzero |
| ConversionLaws.ToBaseAffine | src/sugarcube.py:252-269 | `toBase` of every invertible converter (nonzero factor under its reverses) succeeds with n·slope + offset |
| ConversionLaws.FromBaseAffine | src/sugarcube.py:252-269 | for every invertible converter, `fromBase` succeeds with (n − offset)/slope, the inverse affine map |
| ConversionLaws.ConverterRoundTrip | src/sugarcube.py:262-269 | `fromBase(toBase(n)) == n` and `toBase(fromBase(n)) == n` for every invertible converter |
| ConversionLaws.ConverterExamples | src/sugarcube.py:239-277 | Linear(5,1).toBase(2) = 11, Constant(7).toBase(5) = 12, halving toBase(50) = 25, reverse toBase(21) = 42 |
| ConversionLaws.BaseValueInverse | src/sugarcube.py:130-135 | a value in the base unit and the value in a unit determine each other |
| ConversionLaws.ToThroughBase | src/sugarcube.py:104-135 | converting within a measure gives the target unit's value for the amount's base-unit value |
| ConversionLaws.RoundTrip | src/sugarcube.py:104-135 | `a.to(u).to(a.unit) == a` for units of the same measure |
| ConversionLaws.PathIndependence | src/sugarcube.py:104-135 | converting through an intermediate unit gives the same amount as converting directly |
| ConversionLaws.VolumeToMass | src/sugarcube.py:391-393 | a volume ingredient in a mass unit is density × its milliliters in grams, converted to the unit |
| ConversionLaws.MassToVolume | src/sugarcube.py:394-396 | a mass ingredient in a volume unit is its grams / density in milliliters, converted to the unit |
| ConversionLaws.DensityRequired | src/sugarcube.py:391-396 | crossing between Volume and Mass without a density is an AttributeError, a zero density from Mass a ZeroDivisionError |
| ConversionLaws.DensityRoundTrip | src/sugarcube.py:391-396 | volume → mass unit → original unit gives back the ingredient for a nonzero density |
| ConversionLaws.MassRoundTrip | src/sugarcube.py:391-396 | mass → volume unit → original unit gives back the ingredient for a nonzero density |
| Catalog.SIRegisterFrom | src/sugarcube.py:356-357 | registering the SI units from any point on succeeds and ends with the full SI registry |
| Catalog.SIRegistry | src/sugarcube.py:356-360 | a measure whose base unit has no alternate names registers its six SI units without error, ending with exactly the base and SI names |
| Catalog.RegisterTeaspoons | src/sugarcube.py:407-418 | pinch and teaspoon register, adding their names and plurals |
| Catalog.RegisterFluidOunces | src/sugarcube.py:419-430 | tablespoon and fluid ounce register with all four fluid-ounce names |
| Catalog.RegisterCup | src/sugarcube.py:431-436 | cup registers under `cup` and `cups` |
| Catalog.RegisterPint | src/sugarcube.py:438-443 | pint registers under `pint` and `pints` |
| Catalog.RegisterQuart | src/sugarcube.py:444-449 | quart registers under `quart` and `quarts` |
| Catalog.RegisterGallon | src/sugarcube.py:450-455 | gallon registers under `gallon` and `gallons` |
| Catalog.RegisterBunch | src/sugarcube.py:456 | bunch registers, with `sticks` as its alternate name |
| Catalog.UsVolumeRegistry | src/sugarcube.py:404-458 | the US volume units register without a ValueError and the Volume registry ends with exactly the listed names |
| Catalog.RegisterSticks | src/sugarcube.py:462-469 | ounce and stick register with their plurals |
| Catalog.RegisterPound | src/sugarcube.py:470-475 | pound registers under `pound` and `pounds` |
| Catalog.RegisterProduce | src/sugarcube.py:476-477 | head and clove register with their plurals |
| Catalog.UsMassRegistry | src/sugarcube.py:460-479 | the US mass units register without a ValueError and the Mass registry ends with exactly the listed names |
| Catalog.TemperatureRegistry | src/sugarcube.py:362-369 | kelvin, fahrenheit and thermostat register next to celsius |
| Catalog.TimeRegistry | src/sugarcube.py:376-382 | minute and hour register next to second |
| Catalog.CountRegistry | src/sugarcube.py:384-385 | dozen registers next to unit |
| Catalog.Milliliter | src/sugarcube.py:388 | `Volume.milliliter` is the Volume unit with factor 0.001 |
| Catalog.NewMetricMeasure | src/sugarcube.py:356-360 | a new measure with its SI units and no transforms |
| Catalog.NewTemperature | src/sugarcube.py:362-369 | the Temperature measure with its four units |
| Catalog.NewTime | src/sugarcube.py:376-382 | the Time measure with its three units |
| Catalog.NewCount | src/sugarcube.py:384-385 | the Count measure with unit and dozen |
| Catalog.AddDensityTransforms | src/sugarcube.py:388-396 | Volume gets the milliliter × density transform to Mass, and Mass the grams / density transform to Volume |
| Catalog.AddUsUnits | src/sugarcube.py:404-479 | the US units are added; the Volume and Mass registries end as listed and keep the invariant |
| Catalog.Load | src/sugarcube.py:356-479 | loading leaves six distinct, fresh, valid measures with exactly the catalog's registries and the two density transforms |
| Catalog.MergeLookup | src/sugarcube.py:489-491 | the merged table holds every key of Volume, Mass and Count; Count wins over Mass and Mass over Volume |
| Catalog.MergeOrder | src/sugarcube.py:489-491 | Volume's keys come first in the merged table, in their order |
| Catalog.MergeSettled | src/sugarcube.py:489-491 | with no key shared by Mass and Count, every Mass and Count key maps to its own measure's unit |
| Catalog.AvailableMeasures | src/sugarcube.py:489-491 | a key in both Mass and Count is a TypeError (repeated keyword); otherwise the table is the union, later measures winning, Volume's keys first |
| Catalog.VolumeMetricNames | src/sugarcube.py:359-360 | `liter` is Volume's base unit and `milliliter` its milli unit |
| Catalog.VolumeUsNames | src/sugarcube.py:404-458 | `cups`, `fluid ounces` and `sticks` (bunch) are Volume keys |
| Catalog.MassNames | src/sugarcube.py:460-479 | `gram`, `pounds` and `sticks` (stick) are Mass keys; `unit` and `dozen` are not |
| Catalog.ShadowedNames | src/sugarcube.py:489-491 | the table succeeds and `sticks` and `dozen` resolve to the Mass and Count units, whatever Volume holds |
| Catalog.AvailableSticks | src/sugarcube.py:489-491 | with the catalog's Mass and Count, `sticks` is Mass.stick (not Volume.bunch) and `dozen` is Count.dozen |
| Catalog.LoadedDensity | src/sugarcube.py:388-396 | the loaded catalog has the density transforms the conversion laws assume |
| Catalog.TemperatureExamples | src/sugarcube.py:22-27 | 0 K = −273.15 °C, 37.7 °C = 99.86 °F, 210 °C = thermostat 7, thermostat 6 = 356 °F |
| Catalog.VolumeExamples | src/sugarcube.py:104-111 | 2 l = 200 cl and one cup = 236.588 ml |
| Catalog.CupToGrams | src/sugarcube.py:391-393 | a cup of flour is 165.6116 g and a cup of sugar 283.9056 g |
| Catalog.StickExamples | src/sugarcube.py:469 | a stick of butter is 1 g and 125 g of butter are 125 sticks |
| Catalog.ArithmeticExamples | src/sugarcube.py:137-166 | 42 × gram × Flour is 42 g of flour, 3 × 5 l = 15 l, 42 g / 7 = 6 g |
| Cheffrey.Add | src/cheffrey.py:100-109 | another element name or a non-number is a TypeError; a number adds to the value; a same-named ingredient converts into the left unit and is added, its conversion error passed on; a success keeps the left element and unit |
| Cheffrey.Mul | src/cheffrey.py:111-118 | a number scales the value and keeps unit and element; anything else is a TypeError |
| Cheffrey.AddZero | src/cheffrey.py:106-107 | adding 0 gives the same ingredient |
| Cheffrey.AddSameUnit | src/cheffrey.py:101-105 | two ingredients of one element in one unit add their values, in either order |
| Cheffrey.AddAcrossUnits | src/cheffrey.py:104-105 | the sum is the left value plus the right amount's base value expressed in the left unit |
| Cheffrey.MulComposes | src/cheffrey.py:111-113 | scaling by 1 is the identity; scaling by x then y is scaling by x·y |
| Cheffrey.FlattenAppend | src/cheffrey.py:172-173 | the ingredients of two recipe lists are the concatenation of each list's ingredients |
| Cheffrey.DedupSpec | src/cheffrey.py:174-177 | the first-appearance list of names is duplicate-free, has exactly the names, and only grows at the end |
| Cheffrey.FirstIndex | src/cheffrey.py:174-177 | the position of the first ingredient with a given name |
| Cheffrey.ValueInOwnUnit | src/cheffrey.py:105 | an ingredient converted to its own unit keeps its value |
| Cheffrey.AggregateNext | src/cheffrey.py:172-177 | proof step for the loop and the fold lemmas: `Aggregate` unfolded at one more ingredient, which is one more `+=` or insertion step |
| Cheffrey.AggregateErrSticks | src/cheffrey.py:175 | once a `+=` raises, later ingredients change nothing |
| Cheffrey.CreateShoppingList | src/cheffrey.py:168-181 | the nested loops compute the fold `Aggregate` of all recipes' ingredients in order |
| Cheffrey.AggregateSpec | src/cheffrey.py:168-181 | a successful list has exactly the distinct element names as keys, in order of first appearance; each entry has the element and unit of its first occurrence and the sum of all occurrences in that unit |
| Cheffrey.AggregateOk | src/cheffrey.py:174-177 | the list is built without error exactly when every ingredient converts into the first-seen unit of its element |
| Cheffrey.StepKeys | src/cheffrey.py:174-177 | one step keeps the keys equal to the first-appearance names |
| Cheffrey.StepEntry | src/cheffrey.py:174-177 | one step keeps every entry's first-seen unit and running total |
| Cheffrey.StepEntryNew | src/cheffrey.py:176-177 | a new element is stored as that ingredient |
| Cheffrey.StepEntrySame | src/cheffrey.py:174-175 | a repeated element's entry adds the new ingredient in the stored unit |
| Cheffrey.StepEntryOther | src/cheffrey.py:174-177 | entries of other elements are untouched |
| Cheffrey.StepOk | src/cheffrey.py:174-177 | a step fails exactly when the ingredient does not convert into its element's first-seen unit |
| Cheffrey.SingleOccurrence | src/cheffrey.py:176-177 | an element seen once is stored as exactly that ingredient |
| Cheffrey.ContainsSpec | src/cheffrey.py:38 | `t in s` holds exactly when t occurs in s at some position |
| Cheffrey.InvalidNames | src/cheffrey.py:38 | the excluded names are exactly the registry keys containing "liter" |
| Cheffrey.Round3Spec | src/cheffrey.py:40 | `round(x, 3)` is n/1000 for an integer n within 1/2 of 1000·x, n even when 1000·x is exactly halfway; multiples of 0.001 are unchanged |
| Cheffrey.OfferedUnits | src/cheffrey.py:40 | the comprehension's filter keeps exactly the units whose names are not excluded, in order and with repetitions |
| Cheffrey.Candidates | src/cheffrey.py:40 | the candidate list succeeds exactly when every offered unit converts; then position k holds the k-th offered unit in registry order, repetitions kept, with its rounded value |
| Cheffrey.PickIndex | src/cheffrey.py:41-45 | sort descending then pop: none exactly when all values are below 1, else the least value ≥ 1, the last among equal ones |
| Cheffrey.Pick | src/cheffrey.py:41-45 | the popped candidate is ≥ 1 and no larger than any candidate ≥ 1, and every candidate ≥ 1 after it is strictly larger (the last among equal values); an IndexError exactly when none is ≥ 1 |
| Cheffrey.Choose | src/cheffrey.py:36-45 | a unit without a measure is an AttributeError; a chosen value is ≥ 1 |
| Cheffrey.ChooseOk | src/cheffrey.py:36-46 | the shown unit is offered (not a liter unit), its value is the rounded conversion, and no offered unit has a smaller rounded value ≥ 1 |
| Cheffrey.ChooseLast | src/cheffrey.py:40-45 | among offered units with equal rounded values, the shown unit is the last in registry order: every offered unit after its position with a rounded value ≥ 1 has a larger one |
| Cheffrey.ChooseErr | src/cheffrey.py:36-45 | when all offered units convert, an IndexError occurs exactly when every rounded value is below 1; an offered unit that fails to convert is an error |
| Cheffrey.BisectRight | src/cheffrey.py:53 | `bisect_right` on a sorted list: all elements before the index are ≤ x, all from it on are > x |
| Cheffrey.BisectCutoffs | src/cheffrey.py:51-53 | over the eighths, the index n is in 1..8 with (n−1)/8 ≤ r < n/8 |
| Cheffrey.EighthAsWrittenSpec | src/cheffrey.py:51-53 | as written, the eighth is the smallest k/8 above r, never 0; from 7/8 on it is an IndexError |
| Cheffrey.FloorEighthSpec | src/cheffrey.py:51-53 | rounded down, the eighth k satisfies k/8 ≤ r < (k+1)/8 and is 0 exactly below 1/8 |
| Cheffrey.LowestEighthsSpec | src/cheffrey.py:56-57 | `Fraction(k/8)` keeps its value, with an odd numerator and a denominator dividing 8 |
| Cheffrey.NatToString | src/cheffrey.py:57 | `str(n)` is a non-empty string of decimal digits |
| Cheffrey.NatToStringRoundTrip | src/cheffrey.py:57 | reading the digits of `str(n)` back gives n |
| Cheffrey.RenderFraction | src/cheffrey.py:55-59 | the text holds a `/` exactly when there are eighths to show |
| Cheffrey.ShowAsWritten | src/cheffrey.py:42-53 | as written: the chosen unit, the whole part, and the next eighth above the remainder (1..7); an IndexError exactly when the remainder is ≥ 7/8; choice errors passed on |
| Cheffrey.Show | src/cheffrey.py:42-53 | corrected: succeeds exactly when a unit is chosen; whole + eighths/8 ≤ value < whole + (eighths+1)/8, whole ≥ 1 |
| Cheffrey.PresentAsWrittenAlwaysFraction | src/cheffrey.py:55-59 | as written, every shown amount carries a fraction: the `"<int> <unit>s"` branch is unreachable |
| Cheffrey.RenderExamples | src/cheffrey.py:57-59 | the f-strings give `2 1/8 <unit>s`, `2 <unit>s` and `1 7/8 <unit>s` |
| Cheffrey.WholeAmountShown | src/cheffrey.py:47-53 | a chosen value of exactly 2 shows 2 and 1/8 as written, 2 and 0/8 corrected |
| Cheffrey.WholeAmountExample | src/cheffrey.py:47-59 | a chosen value of exactly 2 prints `2 1/8 <unit>s` as written and `2 <unit>s` corrected |
| Cheffrey.LastEighthExample | src/cheffrey.py:48-53 | a chosen value of 1.9 raises IndexError as written and prints `1 7/8 <unit>s` corrected |

## Left out

- Floating point. Values are exact reals. `round(x, 3)` is exact round-half-even on reals. IEEE rounding and the `%g` formatting of `Amount.__repr__` (src/sugarcube.py:168-174) are not modelled.
- `__repr__` of Element, Ingredient and Amount, and `Recipe.__str__`: display only, built on `%g`.
- Sugarcube.Measure.AddUnit: Python sets `unit.measure` on the caller's unit object and binds it as an attribute with `setattr`. The model stores a copy of the unit with its measure set. The registry map stands for the attribute, so aliasing of that object is not modelled.
- Units are compared by value in the model. Python compares unit objects by identity, so two distinct but identical units differ there.
- The `isinstance(unit, Unit)` TypeErrors in `addUnit` and `SIUnitsFromUnit`: Dafny's types rule out a non-unit argument.
- Element's arbitrary keyword properties: only `density` is ever read, so Element has a name and an optional density.
- Sugarcube.Transform.Apply: its own contract states only the failure without a density and the result unit. The values it computes are stated by ConversionLaws.VolumeToMass, MassToVolume and DensityRequired.
- Sugarcube.Unit.Times: `__rmul__` returning None for a non-number is modelled as None. The later failure of a caller that uses that None is not modelled.
- Cheffrey.Choose: its own contract states only the missing-measure error and the bound ≥ 1. ChooseOk, ChooseLast and ChooseErr state which unit is shown, the tie-break and the errors.
- Shopping-list entries are ingredients of the cheffrey subclass. A plain sugarcube Ingredient as a right operand of `+` is modelled as `OfOther` (a TypeError, since it is not an instance of the subclass).
- The debug `print(remainder)` (src/cheffrey.py:52) and the unreachable code after the returns in `present` (src/cheffrey.py:62-98).
- `Cookbook` (src/cheffrey.py:135-138) is a plain holder that nothing in the core reads.
- `random_ingredient`, `random_cookbook` and `pick_recipes_randomly` (src/cheffrey.py:143-166) exist to produce random data.
- The web and app front ends, storage, scraping, search and messaging around this engine.

## Findings

| source | as written | input that shows it | evidently intended | confidence | as-written member | corrected member |
|---|---|---|---|---|---|---|
| src/cheffrey.py:53 | `cutoffs[bisect(cutoffs, remainder)]` takes the smallest eighth strictly above the remainder, so a whole amount gets 1/8 and the `"<int> <unit>s"` branch is unreachable | an ingredient whose chosen rounded value is 2.0 prints `2 1/8 <unit>s` | the eighth not above the remainder (`bisect(...) - 1`): `2 <unit>s` | high, not executed | Cheffrey.WholeAmountExample | Cheffrey.FloorEighthSpec |
| src/cheffrey.py:53 | for a remainder of 7/8 or more, `bisect` returns 8, past the last cutoff | an ingredient whose chosen rounded value is 1.9 raises IndexError | `1 7/8 <unit>s`: every remainder shows as an eighth from 0 to 7 | high, not executed | Cheffrey.LastEighthExample | Cheffrey.Show |
