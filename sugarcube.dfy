/** The `sugarcube` dimensional-analysis library: units grouped into measures,
    linear converters to and from each measure's base unit, amounts (a value in
    a unit), elements (a named substance, optionally with a density) and
    ingredients (an amount of an element), with density-driven transforms
    between the Volume and Mass measures.

    Values are exact reals.  Python's run-time type tests (`isinstance`) are
    modelled by the `Value` datatype, and its exceptions by `Result`. */
module Sugarcube {
  import opened Results
  import opened OrderedDict

  // ---------------------------------------------------------------- Converter

  /** A pair of functions to and from a measure's base unit.  `Linear(f, c)`
      maps n to n * f + c on the way to the base and back by (n - c) / f;
      `Reverse` swaps the two directions of the converter it wraps. */
  datatype Converter = Linear(factor: real, constant: real) | Reverse(inner: Converter)

  /** `Converter.Constant(c)`: a shift by c, i.e. `Linear(1, c)`. */
  function Constant(constant: real): Converter {
    Linear(1.0, constant)
  }

  /** `Converter.Neutral`, the default converter of a unit: `Linear(1)`. */
  const Neutral: Converter := Linear(1.0, 0.0)

  /** `converter.toBase(n)` */
  function ToBase(c: Converter, n: real): Result<real>
    decreases c
  {
    match c
    case Linear(f, k) => Ok(n * f + k)
    case Reverse(d) => FromBase(d, n)
  }

  /** `converter.fromBase(n)`; a zero factor is a Python ZeroDivisionError. */
  function FromBase(c: Converter, n: real): Result<real>
    decreases c
  {
    match c
    case Linear(f, k) => if f == 0.0 then Err(ZeroDivisionError) else Ok((n - k) / f)
    case Reverse(d) => ToBase(d, n)
  }

  /** Every linear factor inside the converter is nonzero. */
  predicate Invertible(c: Converter) {
    match c
    case Linear(f, _) => f != 0.0
    case Reverse(d) => Invertible(d)
  }

  // --------------------------------------------------------- Unit and Element

  /** A unit of a measure.  `measure` is null until a Measure registers the
      unit; registration stores the unit with `measure` set to itself. */
  datatype Unit = Unit(
    name: string,
    abrev: string,
    preFix: bool,
    converter: Converter,
    measure: Measure?,
    alternateNames: seq<string>)
  {
    /** `n * unit` and `unit * n`: a number makes an Amount; for any other
        operand Python's `__rmul__` falls off its end and returns None. */
    function Times(other: Value): (r: Option<Amount>)
      ensures r.Some? <==> other.Number?
      ensures r.Some? ==> r.value.unit == this && r.value.value == other.x
    {
      if other.Number? then Some(Amount(other.x, this)) else None
    }
  }

  /** `Unit(name, abrev, preFix, converter, alternate_names)` with Python's
      defaults; the new unit belongs to no measure yet. */
  function NewUnit(
    name: string := "Unknown unit",
    abrev: string := "?unit",
    preFix: bool := false,
    converter: Converter := Neutral,
    alternateNames: seq<string> := []): Unit
  {
    Unit(name, abrev, preFix, converter, null, alternateNames)
  }

  /** A food or other substance.  Of the arbitrary keyword properties the
      source accepts, only `density` is ever read. */
  datatype Element = Element(name: string, density: Option<real>)

  /** A Python value passed where the source tests its type at run time. */
  datatype Value =
    | Number(x: real)
    | UnitValue(unit: Unit)
    | MeasureValue(measure: Measure)
    | ElementValue(element: Element)
    | AmountValue(amount: Amount)
    | IngredientValue(ingredient: Ingredient)
    | Other

  // ------------------------------------------------------------------ Amount

  /** A value in a unit. */
  datatype Amount = Amount(value: real, unit: Unit) {

    /** `amount.toBaseUnit()`: the same quantity in the base unit of the
        amount's measure. */
    function ToBaseUnit(): (r: Result<Amount>)
      ensures ToBase(unit.converter, value).Err? ==> r == Err(ToBase(unit.converter, value).error)
      ensures unit.measure == null && ToBase(unit.converter, value).Ok? ==> r == Err(AttributeError)
      ensures r.Ok? ==> unit.measure != null && r.value.unit == unit.measure.BaseUnit()
      ensures r.Ok? ==> ToBase(unit.converter, value).Ok? && r.value.value == ToBase(unit.converter, value).value
    {
      // `toBase` runs before `unit.measure.baseUnit` is looked up
      var v :- ToBase(unit.converter, value);
      if unit.measure == null then Err(AttributeError)
      else Ok(Amount(v, unit.measure.BaseUnit()))
    }

    /** `amount.to(unit)`: convert to another unit of the same measure,
        through the measure's base unit. */
    function To(target: Value): (r: Result<Amount>)
      ensures !target.UnitValue? ==> r == Err(TypeError)
      ensures target == UnitValue(unit) ==> r == Ok(this)
      ensures target.UnitValue? && target.unit != unit && target.unit.measure != unit.measure ==>
        r == Err(if unit.measure == null || target.unit.measure == null then AttributeError else TypeError)
      ensures r.Ok? ==> target.UnitValue? && r.value.unit == target.unit
      ensures r.Ok? && target.unit != unit ==> unit.measure != null && target.unit.measure == unit.measure
    {
      if !target.UnitValue? then Err(TypeError)
      else
        var u := target.unit;
        if unit == u then Ok(this)
        else if u.measure != unit.measure then
          // the error message reads `.name` of both measures
          if unit.measure == null || u.measure == null then Err(AttributeError) else Err(TypeError)
        else if unit.measure == null then Err(AttributeError)
        else
          var base :- if unit != unit.measure.BaseUnit() then ToBaseUnit() else Ok(this);
          if u == base.unit then Ok(base)
          else
            var v :- FromBase(u.converter, base.value);
            Ok(Amount(v, u))
    }

    /** `amount * other` and `other * amount`: an Element makes an
        Ingredient, a number scales the value, anything else is a TypeError. */
    function Times(other: Value): (r: Result<Value>)
      ensures other.ElementValue? ==> r == Ok(IngredientValue(Ingredient(this, other.element)))
      ensures other.Number? ==> r == Ok(AmountValue(Amount(value * other.x, unit)))
      ensures !other.ElementValue? && !other.Number? ==> r == Err(TypeError)
    {
      if other.ElementValue? then Ok(IngredientValue(Ingredient(this, other.element)))
      else if other.Number? then Ok(AmountValue(Amount(value * other.x, unit)))
      else Err(TypeError)
    }

    /** `amount / other` */
    function DividedBy(other: Value): (r: Result<Amount>)
      ensures r.Ok? <==> other.Number? && other.x != 0.0
      ensures r.Ok? ==> r.value.unit == unit && r.value.value * other.x == value
      ensures other.Number? && other.x == 0.0 ==> r == Err(ZeroDivisionError)
      ensures !other.Number? ==> r == Err(TypeError)
    {
      if !other.Number? then Err(TypeError)
      else if other.x == 0.0 then Err(ZeroDivisionError)
      else Ok(Amount(value / other.x, unit))
    }
  }

  // ------------------------------------------------------ Cross transforms

  /** The cross-measure functions the catalog registers.  `MultiplyByDensity`
      is the Volume-to-Mass lambda: the amount in `via` (milliliters) times
      the element's density, in `into` (grams).  `DivideByDensity` is the
      Mass-to-Volume lambda: the amount in `via` (grams) over the density, in
      `into` (milliliters). */
  datatype Transform = MultiplyByDensity(via: Unit, into: Unit) | DivideByDensity(via: Unit, into: Unit) {

    function Apply(a: Amount, e: Element): (r: Result<Amount>)
      ensures e.density.None? ==> r.Err?
      ensures r.Ok? ==> r.value.unit == into
    {
      match this
      case MultiplyByDensity(via, into) =>
        // `element.density` is evaluated before `volume.to(milliliter)`
        if e.density.None? then Err(AttributeError)
        else
          var v :- a.To(UnitValue(via));
          Ok(Amount(e.density.value * v.value, into))
      case DivideByDensity(via, into) =>
        var v :- a.To(UnitValue(via));
        if e.density.None? then Err(AttributeError)
        else if e.density.value == 0.0 then Err(ZeroDivisionError)
        else Ok(Amount(v.value / e.density.value, into))
    }
  }

  // -------------------------------------------------------------- Ingredient

  /** An amount of an element. */
  datatype Ingredient = Ingredient(amount: Amount, element: Element) {

    /** `ingredient.to(unit)`: a Measure stands for its base unit; a unit of
        the same measure converts the amount; a unit of another measure goes
        through the transform registered between the two measures. */
    function To(target: Value): (r: Result<Ingredient>)
      reads amount.unit.measure
      ensures !target.UnitValue? && !target.MeasureValue? ==> r == Err(AttributeError)
      ensures r.Ok? ==> r.value.element == element
      ensures r.Ok? && target.UnitValue? ==> r.value.amount.unit == target.unit
      ensures r.Ok? && target.MeasureValue? ==> r.value.amount.unit == target.measure.BaseUnit()
      ensures target.UnitValue? && target.unit.measure == amount.unit.measure ==>
        r == (var a :- amount.To(target); Ok(Ingredient(a, element)))
    {
      var u :-
        if target.MeasureValue? then Ok(target.measure.BaseUnit())
        else if target.UnitValue? then Ok(target.unit)
        else Err(AttributeError);
      if u.measure == amount.unit.measure then
        var a :- amount.To(UnitValue(u));
        Ok(Ingredient(a, element))
      else
        Transform(u)
    }

    /** `ingredient._transform(unit)`: look up the transform from the
        amount's measure to the unit's, apply it, then convert the result. */
    function Transform(u: Unit): (r: Result<Ingredient>)
      reads amount.unit.measure
      ensures amount.unit.measure == null ==> r == Err(AttributeError)
      ensures amount.unit.measure != null && amount.unit.measure.TransformTo(u.measure).Err? ==>
        r == Err(if u.measure == null then AttributeError else ValueError)
      ensures r.Ok? ==> r.value.element == element && r.value.amount.unit == u
    {
      if amount.unit.measure == null then Err(AttributeError)
      else
        var f :- amount.unit.measure.TransformTo(u.measure);
        var a :- f.Apply(amount, element);
        var b :- a.To(UnitValue(u));
        Ok(Ingredient(b, element))
    }
  }

  // ----------------------------------------------------------------- Measure

  /** The registry `units` after `self.units[unit.name] = unit` followed by
      `self.units[name] = unit` for each alternate name. */
  function WithUnit(d: Dict<string, Unit>, u: Unit): Dict<string, Unit> {
    PutAll(Put(d, u.name, u), u.alternateNames, u)
  }

  /** The registry and the error after `addUnits(us)` on registry `d` of
      measure `m`: the units are added in order and the first unit whose name
      is already a key stops the loop with a ValueError. */
  function RegisterAll(d: Dict<string, Unit>, us: seq<Unit>, m: Measure): (Dict<string, Unit>, Option<Error>)
    decreases |us|
  {
    if us == [] then (d, None)
    else if us[0].name in d.items then (d, Some(ValueError))
    else RegisterAll(WithUnit(d, us[0].(measure := m)), us[1..], m)
  }

  /** A category of units (mass, volume, ...) defined by a base unit. */
  class Measure {
    const name: string
    /** the unit given to the constructor, as it was before registration */
    const baseSpec: Unit
    /** unit names and alternate names to units, in insertion order */
    var units: Dict<string, Unit>
    /** `transform_functions`: target measure to cross-measure function */
    var transforms: map<Measure, Transform>

    /** `self.baseUnit`: the constructor's unit, registered in this measure. */
    function BaseUnit(): (u: Unit)
      ensures u.measure == this && u.name == baseSpec.name && u.converter == baseSpec.converter
    {
      baseSpec.(measure := this)
    }

    ghost predicate Valid()
      reads this
    {
      && WellFormed(units)
      && forall k :: k in units.items ==> units.items[k].measure == this
    }

    constructor(name: string, baseUnit: Unit)
      ensures Valid()
      ensures this.name == name && baseSpec == baseUnit
      ensures units == WithUnit(Empty(), BaseUnit()) && transforms == map[]
    {
      this.name := name;
      baseSpec := baseUnit;
      units := Empty();
      transforms := map[];
      new;
      var err := AddUnit(baseUnit);
    }

    /** `measure.addUnit(unit)`: a ValueError if the unit's name is already
        a key; otherwise the unit, now belonging to this measure, is stored
        under its name and under each alternate name (which may replace
        existing keys, since alternate names are not checked). */
    method AddUnit(unit: Unit) returns (err: Option<Error>)
      requires Valid()
      modifies this`units
      ensures Valid()
      ensures err == if unit.name in old(units.items) then Some(ValueError) else None
      ensures units == if err.Some? then old(units) else WithUnit(old(units), unit.(measure := this))
    {
      if unit.name in units.items {
        return Some(ValueError);
      }
      var registered := unit.(measure := this);
      var named := Put(units, unit.name, registered);
      units := named;
      var alternates := unit.alternateNames;
      var i := 0;
      while i < |alternates|
        invariant 0 <= i <= |alternates|
        invariant Valid()
        invariant units == PutAll(named, alternates[..i], registered)
      {
        assert alternates[..i + 1][..i] == alternates[..i];
        units := Put(units, alternates[i], registered);
        i := i + 1;
      }
      assert alternates[..i] == alternates;
      return None;
    }

    /** `measure.addUnits(units)`: `addUnit` for each unit in turn; the first
        error stops the loop, leaving the units before it registered. */
    method AddUnits(us: seq<Unit>) returns (err: Option<Error>)
      requires Valid()
      modifies this`units
      ensures Valid()
      ensures (units, err) == RegisterAll(old(units), us, this)
    {
      err := None;
      var i := 0;
      while i < |us|
        invariant 0 <= i <= |us|
        invariant Valid()
        invariant err.None?
        invariant RegisterAll(units, us[i..], this) == RegisterAll(old(units), us, this)
      {
        assert us[i..][1..] == us[i + 1..];
        err := AddUnit(us[i]);
        if err.Some? {
          return;
        }
        i := i + 1;
      }
    }

    /** `measure.transformTo(other)`: the registered function, or a
        ValueError when none is registered for that measure; `None` (the
        measure of an unregistered unit) is an AttributeError. */
    function TransformTo(target: Measure?): (r: Result<Transform>)
      reads this
      ensures r.Ok? <==> target != null && target in transforms
      ensures r.Ok? ==> r.value == transforms[target]
      ensures r.Err? ==> r.error == if target == null then AttributeError else ValueError
    {
      // the error message reads `.name` of the target measure
      if target == null then Err(AttributeError)
      else if target !in transforms then Err(ValueError)
      else Ok(transforms[target])
    }

    /** `measure.addTransform(other, f)`: the first function registered for a
        target measure is kept; later ones are ignored. */
    method AddTransform(toMeasure: Measure, f: Transform)
      modifies this`transforms
      ensures toMeasure in old(transforms) ==> transforms == old(transforms)
      ensures toMeasure !in old(transforms) ==> transforms == old(transforms)[toMeasure := f]
    {
      if toMeasure !in transforms {
        transforms := transforms[toMeasure := f];
      }
    }
  }

  /** Registering one unit adds exactly its name and its alternate names,
      each now mapping to the unit; every other key keeps its unit. */
  lemma WithUnitLookup(d: Dict<string, Unit>, u: Unit)
    requires WellFormed(d)
    ensures WellFormed(WithUnit(d, u))
    ensures forall k :: k in WithUnit(d, u).items <==> k in d.items || k == u.name || k in u.alternateNames
    ensures forall k :: k in WithUnit(d, u).items ==>
      WithUnit(d, u).items[k] == if k == u.name || k in u.alternateNames then u else d.items[k]
  {
    var p := Put(d, u.name, u);
    PutAllLookup(p, u.alternateNames, u);
  }

  /** A unit whose name is not yet a key registers, and registration goes on
      with the units after it. */
  lemma RegisterFrom(d: Dict<string, Unit>, us: seq<Unit>, i: nat, m: Measure)
    requires i < |us| && us[i].name !in d.items
    ensures RegisterAll(d, us[i..], m) == RegisterAll(WithUnit(d, us[i].(measure := m)), us[i + 1..], m)
  {
    assert us[i..][1..] == us[i + 1..];
  }

  // ------------------------------------------------------------ SI prefixes

  /** prefix, abbreviation prefix and factor of `SIUnitsFromUnit` */
  const SIPrefixes: seq<(string, string, real)> := [
    ("milli", "m", 0.001),
    ("centi", "c", 0.01),
    ("deci", "d", 0.1),
    ("deca", "da", 10.0),
    ("hecto", "h", 100.0),
    ("kilo", "k", 1000.0)
  ]

  /** `SIUnitsFromUnit(unit)`: the milli- to kilo- units derived from a unit,
      not including the unit itself. */
  function SIUnitsFromUnit(unit: Unit): (r: seq<Unit>)
    ensures |r| == |SIPrefixes|
    ensures forall i :: 0 <= i < |r| ==>
      && r[i].name == SIPrefixes[i].0 + unit.name
      && r[i].abrev == SIPrefixes[i].1 + unit.abrev
      && r[i].preFix == unit.preFix
      && r[i].converter == Linear(SIPrefixes[i].2, 0.0)
      && r[i].measure == null && r[i].alternateNames == []
  {
    seq(|SIPrefixes|, i requires 0 <= i < |SIPrefixes| =>
      NewUnit(SIPrefixes[i].0 + unit.name, SIPrefixes[i].1 + unit.abrev,
              converter := Linear(SIPrefixes[i].2, 0.0), preFix := unit.preFix))
  }
}
