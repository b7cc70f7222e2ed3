/** What the sugarcube conversions promise: converters are invertible affine
    maps, converting an amount within a measure goes through the base unit and
    round-trips, and the density transforms between Volume and Mass undo each
    other. */
module ConversionLaws {
  import opened Results
  import opened Sugarcube

  // ------------------------------------------------------------ Converters

  /** The slope of the affine map `toBase`. */
  function Slope(c: Converter): (s: real)
    requires Invertible(c)
    ensures s != 0.0
  {
    match c
    case Linear(f, _) => f
    case Reverse(d) => 1.0 / Slope(d)
  }

  /** The offset of the affine map `toBase`. */
  function Offset(c: Converter): real
    requires Invertible(c)
  {
    match c
    case Linear(_, k) => k
    case Reverse(d) => -Offset(d) / Slope(d)
  }

  /** Every invertible converter's `toBase` is the affine map n * s + o with
      s != 0, through any number of `reverse`s. */
  lemma {:induction false} ToBaseAffine(c: Converter, n: real)
    requires Invertible(c)
    ensures ToBase(c, n).Ok? && ToBase(c, n).value == n * Slope(c) + Offset(c)
    decreases c
  {
    match c
    case Linear(_, _) =>
    case Reverse(d) =>
      FromBaseAffine(d, n);
      DivisionAsProduct(n, Offset(d), Slope(d));
  }

  /** ... and its `fromBase` is the inverse map (n - o) / s. */
  lemma {:induction false} FromBaseAffine(c: Converter, n: real)
    requires Invertible(c)
    ensures FromBase(c, n).Ok? && FromBase(c, n).value == (n - Offset(c)) / Slope(c)
    decreases c
  {
    match c
    case Linear(_, _) =>
    case Reverse(d) =>
      ToBaseAffine(d, n);
      ReciprocalDivision(n, Offset(d), Slope(d));
  }

  lemma DivisionAsProduct(n: real, o: real, s: real)
    requires s != 0.0
    ensures (n - o) / s == n * (1.0 / s) + -o / s
  {
  }

  lemma ReciprocalDivision(n: real, o: real, s: real)
    requires s != 0.0
    ensures (n - -o / s) / (1.0 / s) == n * s + o
  {
    var t := -o / s;
    assert t * s == -o;
    DivideByReciprocal(n - t, s);
    assert (n - t) * s == n * s - t * s;
  }

  lemma DivideByReciprocal(x: real, s: real)
    requires s != 0.0
    ensures x / (1.0 / s) == x * s
  {
    var r := 1.0 / s;
    assert r * s == 1.0;
    assert (x * s) * r == x * (s * r);
  }

  /** `fromBase` undoes `toBase` and `toBase` undoes `fromBase`. */
  lemma ConverterRoundTrip(c: Converter, n: real)
    requires Invertible(c)
    ensures ToBase(c, n).Ok? && FromBase(c, ToBase(c, n).value).Ok?
    ensures FromBase(c, ToBase(c, n).value).value == n
    ensures FromBase(c, n).Ok? && ToBase(c, FromBase(c, n).value).Ok?
    ensures ToBase(c, FromBase(c, n).value).value == n
  {
    var s, o := Slope(c), Offset(c);
    ToBaseAffine(c, n);
    FromBaseAffine(c, n * s + o);
    FromBaseAffine(c, n);
    ToBaseAffine(c, (n - o) / s);
    Cancel(n, o, s);
  }

  lemma Cancel(n: real, o: real, s: real)
    requires s != 0.0
    ensures (n * s + o - o) / s == n
    ensures (n - o) / s * s + o == n
  {
  }

  /** The converter examples of the library's documentation. */
  lemma ConverterExamples()
    ensures ToBase(Linear(5.0, 1.0), 2.0) == Ok(11.0)
    ensures ToBase(Constant(7.0), 5.0) == Ok(12.0)
    // Converter(lambda n: n / 2, lambda n: 2 * n) is Linear(1/2)
    ensures ToBase(Linear(0.5, 0.0), 50.0) == Ok(25.0)
    ensures ToBase(Reverse(Linear(0.5, 0.0)), 21.0) == Ok(42.0)
  {
  }

  // ------------------------------------------------- Amounts within a measure

  /** The units of amount conversions whose converters can be inverted. */
  predicate Convertible(u: Unit) {
    u.measure != null && Invertible(u.converter)
  }

  /** The value of an amount in its measure's base unit: the base unit's own
      values are taken as they are, every other unit's go through `toBase`. */
  function BaseValue(a: Amount): real
    requires Convertible(a.unit)
  {
    if a.unit == a.unit.measure.BaseUnit() then a.value
    else ConverterRoundTrip(a.unit.converter, a.value); ToBase(a.unit.converter, a.value).value
  }

  /** The value in unit `u` of base value `b`. */
  function FromBaseValue(u: Unit, b: real): real
    requires Convertible(u)
  {
    if u == u.measure.BaseUnit() then b
    else ConverterRoundTrip(u.converter, b); FromBase(u.converter, b).value
  }

  lemma BaseValueInverse(u: Unit, b: real, v: real)
    requires Convertible(u)
    ensures BaseValue(Amount(FromBaseValue(u, b), u)) == b
    ensures FromBaseValue(u, BaseValue(Amount(v, u))) == v
  {
    ConverterRoundTrip(u.converter, b);
    ConverterRoundTrip(u.converter, v);
  }

  /** Converting within a measure goes through the base unit: the result's
      value is the target unit's reading of the source's base value. */
  lemma ToThroughBase(a: Amount, u: Unit)
    requires Convertible(a.unit) && Convertible(u) && u.measure == a.unit.measure
    ensures a.To(UnitValue(u)) == Ok(Amount(FromBaseValue(u, BaseValue(a)), u))
  {
    BaseValueInverse(a.unit, 0.0, a.value);
    ConverterRoundTrip(a.unit.converter, a.value);
    ConverterRoundTrip(u.converter, BaseValue(a));
  }

  /** `toBaseUnit` of an amount in an invertible unit succeeds with
      value * slope + offset in the base unit; for a unit other than the base
      unit it agrees with `to(baseUnit)` and gives the amount's base value. */
  lemma ToBaseUnitAffine(a: Amount)
    requires Convertible(a.unit)
    ensures a.ToBaseUnit() == Ok(Amount(a.value * Slope(a.unit.converter) + Offset(a.unit.converter), a.unit.measure.BaseUnit()))
    ensures a.unit != a.unit.measure.BaseUnit() ==>
      a.To(UnitValue(a.unit.measure.BaseUnit())) == a.ToBaseUnit() && a.ToBaseUnit().value.value == BaseValue(a)
  {
    ToBaseAffine(a.unit.converter, a.value);
  }

  /** Round trip: converting to another unit of the same measure and back
      gives the original amount. */
  lemma RoundTrip(a: Amount, u: Unit)
    requires Convertible(a.unit) && Convertible(u) && u.measure == a.unit.measure
    ensures a.To(UnitValue(u)).Ok?
    ensures a.To(UnitValue(u)).value.To(UnitValue(a.unit)) == Ok(a)
  {
    ToThroughBase(a, u);
    var b := Amount(FromBaseValue(u, BaseValue(a)), u);
    ToThroughBase(b, a.unit);
    BaseValueInverse(u, BaseValue(a), 0.0);
    BaseValueInverse(a.unit, 0.0, a.value);
  }

  /** Converting in two steps gives what converting in one step gives. */
  lemma PathIndependence(a: Amount, u: Unit, w: Unit)
    requires Convertible(a.unit) && Convertible(u) && Convertible(w)
    requires u.measure == a.unit.measure && w.measure == a.unit.measure
    ensures a.To(UnitValue(u)).Ok?
    ensures a.To(UnitValue(u)).value.To(UnitValue(w)) == a.To(UnitValue(w))
  {
    ToThroughBase(a, u);
    var b := Amount(FromBaseValue(u, BaseValue(a)), u);
    ToThroughBase(b, w);
    ToThroughBase(a, w);
    BaseValueInverse(u, BaseValue(a), 0.0);
  }

  // ------------------------------------------------ Volume <-> Mass by density

  /** The two density transforms as the catalog registers them: `ml` is a
      unit of `volume`, `g` a unit of `mass`. */
  ghost predicate DensityTransforms(volume: Measure, mass: Measure, ml: Unit, g: Unit)
    reads volume, mass
  {
    && volume != mass
    && ml.measure == volume && g.measure == mass
    && Convertible(ml) && Convertible(g)
    && volume.TransformTo(mass) == Ok(MultiplyByDensity(ml, g))
    && mass.TransformTo(volume) == Ok(DivideByDensity(g, ml))
  }

  /** Volume to Mass: density times the volume in `ml`, in `g`. */
  lemma VolumeToMass(volume: Measure, mass: Measure, ml: Unit, g: Unit, i: Ingredient)
    requires DensityTransforms(volume, mass, ml, g)
    requires i.amount.unit.measure == volume && Convertible(i.amount.unit)
    requires i.element.density.Some?
    ensures i.amount.To(UnitValue(ml)).Ok? && i.To(UnitValue(g)).Ok?
    ensures i.To(UnitValue(g)).value ==
      Ingredient(Amount(i.element.density.value * i.amount.To(UnitValue(ml)).value.value, g), i.element)
  {
    ToThroughBase(i.amount, ml);
    var inMl := i.amount.To(UnitValue(ml)).value;
    var grams := Amount(i.element.density.value * inMl.value, g);
    var applied := MultiplyByDensity(ml, g).Apply(i.amount, i.element);
    assert applied.Ok? && applied.value == grams;
    assert grams.To(UnitValue(g)) == Ok(grams);
    var r := i.Transform(g);
    assert r.Ok? && r.value == Ingredient(grams, i.element);
  }

  /** Mass to Volume: the mass in `g` over the density, in `ml`. */
  lemma MassToVolume(volume: Measure, mass: Measure, ml: Unit, g: Unit, i: Ingredient)
    requires DensityTransforms(volume, mass, ml, g)
    requires i.amount.unit.measure == mass && Convertible(i.amount.unit)
    requires i.element.density.Some? && i.element.density.value != 0.0
    ensures i.amount.To(UnitValue(g)).Ok? && i.To(UnitValue(ml)).Ok?
    ensures i.To(UnitValue(ml)).value ==
      Ingredient(Amount(i.amount.To(UnitValue(g)).value.value / i.element.density.value, ml), i.element)
  {
    ToThroughBase(i.amount, g);
    var inG := i.amount.To(UnitValue(g)).value;
    var mls := Amount(inG.value / i.element.density.value, ml);
    var applied := DivideByDensity(g, ml).Apply(i.amount, i.element);
    assert applied.Ok? && applied.value == mls;
    assert mls.To(UnitValue(ml)) == Ok(mls);
    var r := i.Transform(ml);
    assert r.Ok? && r.value == Ingredient(mls, i.element);
  }

  /** Crossing measures needs a density: without one both directions fail
      with Python's AttributeError, and Mass to Volume with a zero density
      is a ZeroDivisionError. */
  lemma DensityRequired(volume: Measure, mass: Measure, ml: Unit, g: Unit, i: Ingredient, u: Unit)
    requires DensityTransforms(volume, mass, ml, g)
    requires Convertible(i.amount.unit)
    requires (i.amount.unit.measure == volume && u.measure == mass) ||
             (i.amount.unit.measure == mass && u.measure == volume)
    ensures i.element.density.None? ==> i.To(UnitValue(u)) == Err(AttributeError)
    ensures i.element.density == Some(0.0) && i.amount.unit.measure == mass ==>
      i.To(UnitValue(u)) == Err(ZeroDivisionError)
  {
    if i.amount.unit.measure == mass {
      ToThroughBase(i.amount, g);
    }
  }

  lemma ScaleCancels(d: real, x: real, y: real)
    requires d != 0.0 && y == d * x
    ensures y / d == x
  {
  }

  lemma DivideCancels(d: real, x: real, y: real)
    requires d != 0.0 && y == x / d
    ensures d * y == x
  {
  }

  /** Volume to any Mass unit `u`: an ingredient measuring `v` in `ml`
      comes out as `grams`, the density times `v`, in `g`, read in `u`. */
  lemma VolumeLeg(volume: Measure, mass: Measure, ml: Unit, g: Unit, i: Ingredient, u: Unit, v: real, grams: real) returns (there: Amount)
    requires DensityTransforms(volume, mass, ml, g)
    requires i.amount.unit.measure == volume && Convertible(i.amount.unit)
    requires u.measure == mass && Convertible(u)
    requires i.element.density.Some?
    requires i.amount.To(UnitValue(ml)) == Ok(Amount(v, ml))
    requires grams == i.element.density.value * v
    ensures there.unit == u && i.To(UnitValue(u)) == Ok(Ingredient(there, i.element))
    ensures there.To(UnitValue(g)) == Ok(Amount(grams, g))
  {
    var inG := Amount(grams, g);
    var applied := MultiplyByDensity(ml, g).Apply(i.amount, i.element);
    assert applied.Ok? && applied.value == inG;
    ToThroughBase(inG, u);
    RoundTrip(inG, u);
    there := inG.To(UnitValue(u)).value;
    var r := i.Transform(u);
    assert r.Ok? && r.value == Ingredient(there, i.element);
  }

  /** Mass to any Volume unit `w`: an ingredient measuring `v` in `g` comes
      out as `mls`, `v` over the density, in `ml`, read in `w`. */
  lemma MassLeg(volume: Measure, mass: Measure, ml: Unit, g: Unit, i: Ingredient, w: Unit, v: real, mls: real) returns (there: Amount)
    requires DensityTransforms(volume, mass, ml, g)
    requires i.amount.unit.measure == mass && Convertible(i.amount.unit)
    requires w.measure == volume && Convertible(w)
    requires i.element.density.Some? && i.element.density.value != 0.0
    requires i.amount.To(UnitValue(g)) == Ok(Amount(v, g))
    requires mls == v / i.element.density.value
    ensures there.unit == w && i.To(UnitValue(w)) == Ok(Ingredient(there, i.element))
    ensures there.To(UnitValue(ml)) == Ok(Amount(mls, ml))
  {
    var inMl := Amount(mls, ml);
    var applied := DivideByDensity(g, ml).Apply(i.amount, i.element);
    assert applied.Ok? && applied.value == inMl;
    ToThroughBase(inMl, w);
    RoundTrip(inMl, w);
    there := inMl.To(UnitValue(w)).value;
    var r := i.Transform(w);
    assert r.Ok? && r.value == Ingredient(there, i.element);
  }

  /** Two amounts of one unit that convert to the same amount are equal. */
  lemma ConvertInjective(a: Amount, b: Amount, u: Unit)
    requires Convertible(a.unit) && Convertible(u) && u.measure == a.unit.measure && b.unit == a.unit
    requires a.To(UnitValue(u)).Ok? && a.To(UnitValue(u)) == b.To(UnitValue(u))
    ensures a == b
  {
    RoundTrip(a, u);
    RoundTrip(b, u);
  }

  /** A Mass amount holding the density times a Volume ingredient's
      milliliters converts back to that ingredient. */
  lemma BackToVolume(volume: Measure, mass: Measure, ml: Unit, g: Unit, i: Ingredient, there: Amount, grams: real)
    requires DensityTransforms(volume, mass, ml, g)
    requires i.amount.unit.measure == volume && Convertible(i.amount.unit)
    requires there.unit.measure == mass && Convertible(there.unit)
    requires i.element.density.Some? && i.element.density.value != 0.0
    requires i.amount.To(UnitValue(ml)).Ok? && grams == i.element.density.value * i.amount.To(UnitValue(ml)).value.value
    requires there.To(UnitValue(g)) == Ok(Amount(grams, g))
    ensures Ingredient(there, i.element).To(UnitValue(i.amount.unit)) == Ok(i)
  {
    ToThroughBase(i.amount, ml);
    var inMl := i.amount.To(UnitValue(ml)).value;
    ScaleCancels(i.element.density.value, inMl.value, grams);
    var back := MassLeg(volume, mass, ml, g, Ingredient(there, i.element), i.amount.unit, grams, inMl.value);
    ConvertInjective(back, i.amount, ml);
  }

  /** A Volume amount holding a Mass ingredient's grams over the density
      converts back to that ingredient. */
  lemma BackToMass(volume: Measure, mass: Measure, ml: Unit, g: Unit, i: Ingredient, there: Amount, mls: real)
    requires DensityTransforms(volume, mass, ml, g)
    requires i.amount.unit.measure == mass && Convertible(i.amount.unit)
    requires there.unit.measure == volume && Convertible(there.unit)
    requires i.element.density.Some? && i.element.density.value != 0.0
    requires i.amount.To(UnitValue(g)).Ok? && mls == i.amount.To(UnitValue(g)).value.value / i.element.density.value
    requires there.To(UnitValue(ml)) == Ok(Amount(mls, ml))
    ensures Ingredient(there, i.element).To(UnitValue(i.amount.unit)) == Ok(i)
  {
    ToThroughBase(i.amount, g);
    var inG := i.amount.To(UnitValue(g)).value;
    DivideCancels(i.element.density.value, inG.value, mls);
    var back := VolumeLeg(volume, mass, ml, g, Ingredient(there, i.element), i.amount.unit, mls, inG.value);
    ConvertInjective(back, i.amount, g);
  }

  /** Converting a Volume ingredient to a Mass unit and back gives the
      original ingredient, for any nonzero density. */
  lemma DensityRoundTrip(volume: Measure, mass: Measure, ml: Unit, g: Unit, i: Ingredient, u: Unit)
    requires DensityTransforms(volume, mass, ml, g)
    requires i.amount.unit.measure == volume && Convertible(i.amount.unit)
    requires u.measure == mass && Convertible(u)
    requires i.element.density.Some? && i.element.density.value != 0.0
    ensures i.To(UnitValue(u)).Ok?
    ensures i.To(UnitValue(u)).value.To(UnitValue(i.amount.unit)) == Ok(i)
  {
    ToThroughBase(i.amount, ml);
    var v := i.amount.To(UnitValue(ml)).value.value;
    var there := VolumeLeg(volume, mass, ml, g, i, u, v, i.element.density.value * v);
    BackToVolume(volume, mass, ml, g, i, there, i.element.density.value * v);
  }

  /** Converting a Mass ingredient to a Volume unit and back gives the
      original ingredient, for any nonzero density. */
  lemma MassRoundTrip(volume: Measure, mass: Measure, ml: Unit, g: Unit, i: Ingredient, w: Unit)
    requires DensityTransforms(volume, mass, ml, g)
    requires i.amount.unit.measure == mass && Convertible(i.amount.unit)
    requires w.measure == volume && Convertible(w)
    requires i.element.density.Some? && i.element.density.value != 0.0
    ensures i.To(UnitValue(w)).Ok?
    ensures i.To(UnitValue(w)).value.To(UnitValue(i.amount.unit)) == Ok(i)
  {
    ToThroughBase(i.amount, g);
    var v := i.amount.To(UnitValue(g)).value.value;
    var there := MassLeg(volume, mass, ml, g, i, w, v, v / i.element.density.value);
    BackToMass(volume, mass, ml, g, i, there, v / i.element.density.value);
  }
}
