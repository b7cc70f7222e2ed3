/** The static catalog the sugarcube module builds when it is loaded: the
    Mass, Volume, Temperature, Length, Time and Count measures with their SI
    and US cooking units, the density transforms between Volume and Mass, four
    common elements, and the `available_measures` lookup table. */
module Catalog {
  import opened Results
  import opened OrderedDict
  import opened Sugarcube
  import opened ConversionLaws

  // ------------------------------------------------------------ Unit specs

  const Gram: Unit := NewUnit("gram", "g")
  const Liter: Unit := NewUnit("liter", "l")
  const Celsius: Unit := NewUnit("celsius", "°C")
  const Kelvin: Unit := NewUnit("kelvin", "°K", converter := Constant(-273.15))
  const Fahrenheit: Unit := NewUnit("fahrenheit", "°F", converter := Reverse(Linear(1.8, 32.0)))
  const Thermostat: Unit := NewUnit("thermostat", "thermostat", preFix := true, converter := Linear(30.0, 0.0))
  const Meter: Unit := NewUnit("meter", "m")
  const Second: Unit := NewUnit("second", "s")
  const Minute: Unit := NewUnit("minute", "min", converter := Linear(60.0, 0.0))
  const Hour: Unit := NewUnit("hour", "h", converter := Linear(3600.0, 0.0))
  const UnitOfCount: Unit := NewUnit("unit", "")
  const Dozen: Unit := NewUnit("dozen", "doz", converter := Linear(12.0, 0.0))

  const TemperatureUnits: seq<Unit> := [Kelvin, Fahrenheit, Thermostat]
  const TimeUnits: seq<Unit> := [Minute, Hour]
  const CountUnits: seq<Unit> := [Dozen]

  /** the US legal cup, in liters */
  const CupInLiter: real := 0.236588
  /** 231 cubic inches, in liters */
  const GallonInLiter: real := 0.231 * (2.54 * 2.54 * 2.54)
  /** the NIST pound, in grams */
  const PoundInGrams: real := 453.59237

  const Pinch: Unit := NewUnit("pinch", "pinch", converter := Linear(CupInLiter / 768.0, 0.0), alternateNames := ["pinches"])
  const Teaspoon: Unit := NewUnit("teaspoon", "tsp.", converter := Linear(CupInLiter / 48.0, 0.0), alternateNames := ["teaspoons"])
  const Tablespoon: Unit := NewUnit("tablespoon", "tbsp.", converter := Linear(CupInLiter / 16.0, 0.0), alternateNames := ["tablespoons"])
  const FluidOunce: Unit := NewUnit("fluidOunce", "fl. oz.", converter := Linear(CupInLiter / 8.0, 0.0),
                                    alternateNames := ["fluidOunces", "fluid ounce", "fluid ounces"])
  const Cup: Unit := NewUnit("cup", "cup", converter := Linear(CupInLiter, 0.0), alternateNames := ["cups"])
  const Pint: Unit := NewUnit("pint", "pt.", converter := Linear(GallonInLiter / 8.0, 0.0), alternateNames := ["pints"])
  const Quart: Unit := NewUnit("quart", "qt", converter := Linear(GallonInLiter / 4.0, 0.0), alternateNames := ["quarts"])
  const Gallon: Unit := NewUnit("gallon", "gal.", converter := Linear(GallonInLiter, 0.0), alternateNames := ["gallons"])
  const Bunch: Unit := NewUnit("bunch", "bunch", alternateNames := ["sticks"])

  const Ounce: Unit := NewUnit("ounce", "oz", converter := Linear(PoundInGrams / 16.0, 0.0), alternateNames := ["ounces"])
  /** A stick of butter: its converter is the neutral one, so one stick is one gram. */
  const Stick: Unit := NewUnit("stick", "stick", alternateNames := ["sticks"])
  const Pound: Unit := NewUnit("pound", "lb", converter := Linear(PoundInGrams, 0.0), alternateNames := ["pounds"])
  const Head: Unit := NewUnit("head", "head", alternateNames := ["heads"])
  const Clove: Unit := NewUnit("clove", "clove", alternateNames := ["cloves"])

  const UsVolumeUnits: seq<Unit> := [Pinch, Teaspoon, Tablespoon, FluidOunce, Cup, Pint, Quart, Gallon, Bunch]
  const UsMassUnits: seq<Unit> := [Ounce, Stick, Pound, Head, Clove]

  // ---------------------------------------------------------------- Elements

  const Flour: Element := Element("Flour", Some(0.7))
  const Sugar: Element := Element("Sugar", Some(1.2))
  const Salt: Element := Element("Salt", Some(1.2))
  const Butter: Element := Element("Butter", Some(0.9))

  // -------------------------------------------------------------- Registries

  /** Different prefixes make different names. */
  lemma AppendCancel(p: string, q: string, n: string)
    requires p != q
    ensures p + n != q + n
  {
    if |p| == |q| {
      assert (p + n)[..|p|] == p && (q + n)[..|q|] == q;
    }
  }

  lemma WithUnitOne(d: Dict<string, Unit>, u: Unit)
    requires |u.alternateNames| == 1
    ensures WithUnit(d, u).items == d.items[u.name := u][u.alternateNames[0] := u]
  {
    var x, ks := Put(d, u.name, u), u.alternateNames;
    assert ks[..0] == [];
    assert PutAll(x, ks, u) == Put(PutAll(x, ks[..0], u), ks[0], u);
  }

  lemma WithUnitThree(d: Dict<string, Unit>, u: Unit)
    requires |u.alternateNames| == 3
    ensures WithUnit(d, u).items ==
      d.items[u.name := u][u.alternateNames[0] := u][u.alternateNames[1] := u][u.alternateNames[2] := u]
  {
    var x, ks := Put(d, u.name, u), u.alternateNames;
    assert ks[..2][..1] == ks[..1] && ks[..1][..0] == [] && ks[..3] == ks;
    assert PutAll(x, ks[..1], u) == Put(x, ks[0], u);
    assert PutAll(x, ks[..2], u) == Put(PutAll(x, ks[..1], u), ks[1], u);
    assert PutAll(x, ks, u) == Put(PutAll(x, ks[..2], u), ks[2], u);
  }

  /** The registry of a measure right after its base unit and its SI units
      are added. */
  function SIItems(base: Unit, m: Measure): map<string, Unit> {
    var us := SIUnitsFromUnit(base);
    map[base.name := base.(measure := m),
        "milli" + base.name := us[0].(measure := m),
        "centi" + base.name := us[1].(measure := m),
        "deci" + base.name := us[2].(measure := m),
        "deca" + base.name := us[3].(measure := m),
        "hecto" + base.name := us[4].(measure := m),
        "kilo" + base.name := us[5].(measure := m)]
  }

  /** The SI units depend only on the name, abbreviation and display side of
      the unit they are derived from. */
  lemma SIUnitsIgnoreMeasure(base: Unit, m: Measure)
    ensures SIUnitsFromUnit(base.(measure := m)) == SIUnitsFromUnit(base)
  {
    var a, b := SIUnitsFromUnit(base.(measure := m)), SIUnitsFromUnit(base);
    assert forall i :: 0 <= i < |a| ==> a[i] == b[i];
  }

  /** The registry after the base unit and the first `i` SI units. */
  function SIItemsUpTo(base: Unit, m: Measure, i: nat): map<string, Unit>
    requires i <= |SIPrefixes|
  {
    if i == 0 then map[base.name := base.(measure := m)]
    else SIItemsUpTo(base, m, i - 1)[SIPrefixes[i - 1].0 + base.name := SIUnitsFromUnit(base)[i - 1].(measure := m)]
  }

  lemma {:induction false} SIKeysUpTo(base: Unit, m: Measure, i: nat)
    requires i <= |SIPrefixes|
    ensures forall k :: k in SIItemsUpTo(base, m, i) <==>
      k == base.name || exists j :: 0 <= j < i && k == SIPrefixes[j].0 + base.name
  {
    if i > 0 {
      SIKeysUpTo(base, m, i - 1);
    }
  }

  /** The next SI unit's name is not yet a key: the prefixes are non-empty
      and pairwise different. */
  lemma SIFresh(base: Unit, m: Measure, i: nat)
    requires i < |SIPrefixes|
    ensures SIPrefixes[i].0 + base.name !in SIItemsUpTo(base, m, i)
  {
    SIKeysUpTo(base, m, i);
    var k := SIPrefixes[i].0 + base.name;
    assert k != base.name by {
      assert |k| > |base.name|;
    }
    forall j | 0 <= j < i
      ensures k != SIPrefixes[j].0 + base.name
    {
      AppendCancel(SIPrefixes[i].0, SIPrefixes[j].0, base.name);
    }
  }

  /** Registering the SI units from the `i`-th on adds each under its own name
      and raises nothing. */
  lemma {:induction false} SIRegisterFrom(base: Unit, m: Measure, d: Dict<string, Unit>, i: nat)
    requires i <= |SIPrefixes|
    requires d.items == SIItemsUpTo(base, m, i)
    ensures RegisterAll(d, SIUnitsFromUnit(base)[i..], m).1 == None
    ensures RegisterAll(d, SIUnitsFromUnit(base)[i..], m).0.items == SIItemsUpTo(base, m, |SIPrefixes|)
    decreases |SIPrefixes| - i
  {
    var us := SIUnitsFromUnit(base);
    if i == |SIPrefixes| {
      assert us[i..] == [];
    } else {
      SIFresh(base, m, i);
      RegisterFrom(d, us, i, m);
      var e := WithUnit(d, us[i].(measure := m));
      assert e.items == SIItemsUpTo(base, m, i + 1);
      SIRegisterFrom(base, m, e, i + 1);
    }
  }

  /** A measure whose base unit has no alternate names registers its six SI
      units without error, each under its own name. */
  lemma SIRegistry(base: Unit, m: Measure)
    requires base.alternateNames == []
    ensures var us := SIUnitsFromUnit(base);
      var (d, err) := RegisterAll(WithUnit(Empty(), base.(measure := m)), us, m);
      && err == None
      && d.items == SIItems(base, m)
  {
    var us := SIUnitsFromUnit(base);
    var d0 := WithUnit(Empty(), base.(measure := m));
    assert d0.items == SIItemsUpTo(base, m, 0);
    SIRegisterFrom(base, m, d0, 0);
    assert us[0..] == us;
    assert SIItemsUpTo(base, m, 6) == SIItems(base, m) by {
      assert SIItemsUpTo(base, m, 5)[SIPrefixes[5].0 + base.name := us[5].(measure := m)] == SIItemsUpTo(base, m, 6);
      assert SIItemsUpTo(base, m, 4)[SIPrefixes[4].0 + base.name := us[4].(measure := m)] == SIItemsUpTo(base, m, 5);
      assert SIItemsUpTo(base, m, 3)[SIPrefixes[3].0 + base.name := us[3].(measure := m)] == SIItemsUpTo(base, m, 4);
      assert SIItemsUpTo(base, m, 2)[SIPrefixes[2].0 + base.name := us[2].(measure := m)] == SIItemsUpTo(base, m, 3);
      assert SIItemsUpTo(base, m, 1)[SIPrefixes[1].0 + base.name := us[1].(measure := m)] == SIItemsUpTo(base, m, 2);
    }
  }

  /** The Volume registry after liter and its SI units. */
  function MetricVolumeItems(v: Measure): map<string, Unit> {
    map["liter" := v.BaseUnit(),
        "milliliter" := SIUnitsFromUnit(Liter)[0].(measure := v),
        "centiliter" := SIUnitsFromUnit(Liter)[1].(measure := v),
        "deciliter" := SIUnitsFromUnit(Liter)[2].(measure := v),
        "decaliter" := SIUnitsFromUnit(Liter)[3].(measure := v),
        "hectoliter" := SIUnitsFromUnit(Liter)[4].(measure := v),
        "kiloliter" := SIUnitsFromUnit(Liter)[5].(measure := v)]
  }

  /** The Volume registry after pinch and teaspoon. */
  function VolumeItemsToTeaspoon(v: Measure): map<string, Unit> {
    MetricVolumeItems(v)
      ["pinch" := Pinch.(measure := v)]["pinches" := Pinch.(measure := v)]
      ["teaspoon" := Teaspoon.(measure := v)]["teaspoons" := Teaspoon.(measure := v)]
  }

  /** The Volume registry after tablespoon and fluid ounce. */
  function VolumeItemsToFluidOunce(v: Measure): map<string, Unit> {
    VolumeItemsToTeaspoon(v)
      ["tablespoon" := Tablespoon.(measure := v)]["tablespoons" := Tablespoon.(measure := v)]
      ["fluidOunce" := FluidOunce.(measure := v)]["fluidOunces" := FluidOunce.(measure := v)]["fluid ounce" := FluidOunce.(measure := v)]["fluid ounces" := FluidOunce.(measure := v)]
  }

  /** The Volume registry after cup. */
  function VolumeItemsToCup(v: Measure): map<string, Unit> {
    VolumeItemsToFluidOunce(v)
      ["cup" := Cup.(measure := v)]["cups" := Cup.(measure := v)]
  }

  /** The Volume registry after pint. */
  function VolumeItemsToPint(v: Measure): map<string, Unit> {
    VolumeItemsToCup(v)
      ["pint" := Pint.(measure := v)]["pints" := Pint.(measure := v)]
  }

  /** The Volume registry after quart. */
  function VolumeItemsToQuart(v: Measure): map<string, Unit> {
    VolumeItemsToPint(v)
      ["quart" := Quart.(measure := v)]["quarts" := Quart.(measure := v)]
  }

  /** The Volume registry after gallon. */
  function VolumeItemsToGallon(v: Measure): map<string, Unit> {
    VolumeItemsToQuart(v)
      ["gallon" := Gallon.(measure := v)]["gallons" := Gallon.(measure := v)]
  }

  /** The whole Volume registry: `sticks` names `bunch` here. */
  function VolumeItems(v: Measure): map<string, Unit> {
    VolumeItemsToGallon(v)
      ["bunch" := Bunch.(measure := v)]["sticks" := Bunch.(measure := v)]
  }

  /** Registering pinch and teaspoon. */
  lemma RegisterTeaspoons(v: Measure, d: Dict<string, Unit>) returns (r: Dict<string, Unit>)
    requires d.items == MetricVolumeItems(v)
    ensures RegisterAll(d, UsVolumeUnits[0..], v) == RegisterAll(r, UsVolumeUnits[2..], v)
    ensures r.items == VolumeItemsToTeaspoon(v)
  {
    var us := UsVolumeUnits;
    RegisterFrom(d, us, 0, v);
    var r1 := WithUnit(d, Pinch.(measure := v));
    WithUnitOne(d, Pinch.(measure := v));
    assert r1.items == d.items["pinch" := Pinch.(measure := v)]["pinches" := Pinch.(measure := v)];
    RegisterFrom(r1, us, 1, v);
    var r2 := WithUnit(r1, Teaspoon.(measure := v));
    WithUnitOne(r1, Teaspoon.(measure := v));
    assert r2.items == r1.items["teaspoon" := Teaspoon.(measure := v)]["teaspoons" := Teaspoon.(measure := v)];
    r := r2;
  }

  /** Registering tablespoon and fluid ounce. */
  lemma RegisterFluidOunces(v: Measure, d: Dict<string, Unit>) returns (r: Dict<string, Unit>)
    requires d.items == VolumeItemsToTeaspoon(v)
    ensures RegisterAll(d, UsVolumeUnits[2..], v) == RegisterAll(r, UsVolumeUnits[4..], v)
    ensures r.items == VolumeItemsToFluidOunce(v)
  {
    var us := UsVolumeUnits;
    RegisterFrom(d, us, 2, v);
    var r3 := WithUnit(d, Tablespoon.(measure := v));
    WithUnitOne(d, Tablespoon.(measure := v));
    assert r3.items == d.items["tablespoon" := Tablespoon.(measure := v)]["tablespoons" := Tablespoon.(measure := v)];
    RegisterFrom(r3, us, 3, v);
    var r4 := WithUnit(r3, FluidOunce.(measure := v));
    WithUnitThree(r3, FluidOunce.(measure := v));
    assert r4.items == r3.items["fluidOunce" := FluidOunce.(measure := v)]["fluidOunces" := FluidOunce.(measure := v)]["fluid ounce" := FluidOunce.(measure := v)]["fluid ounces" := FluidOunce.(measure := v)];
    r := r4;
  }

  /** Registering cup. */
  lemma RegisterCup(v: Measure, d: Dict<string, Unit>) returns (r: Dict<string, Unit>)
    requires d.items == VolumeItemsToFluidOunce(v)
    ensures RegisterAll(d, UsVolumeUnits[4..], v) == RegisterAll(r, UsVolumeUnits[5..], v)
    ensures r.items == VolumeItemsToCup(v)
  {
    var us := UsVolumeUnits;
    RegisterFrom(d, us, 4, v);
    var r5 := WithUnit(d, Cup.(measure := v));
    WithUnitOne(d, Cup.(measure := v));
    assert r5.items == d.items["cup" := Cup.(measure := v)]["cups" := Cup.(measure := v)];
    r := r5;
  }

  /** Registering pint. */
  lemma RegisterPint(v: Measure, d: Dict<string, Unit>) returns (r: Dict<string, Unit>)
    requires d.items == VolumeItemsToCup(v)
    ensures RegisterAll(d, UsVolumeUnits[5..], v) == RegisterAll(r, UsVolumeUnits[6..], v)
    ensures r.items == VolumeItemsToPint(v)
  {
    var us := UsVolumeUnits;
    RegisterFrom(d, us, 5, v);
    var r6 := WithUnit(d, Pint.(measure := v));
    WithUnitOne(d, Pint.(measure := v));
    assert r6.items == d.items["pint" := Pint.(measure := v)]["pints" := Pint.(measure := v)];
    r := r6;
  }

  /** Registering quart. */
  lemma RegisterQuart(v: Measure, d: Dict<string, Unit>) returns (r: Dict<string, Unit>)
    requires d.items == VolumeItemsToPint(v)
    ensures RegisterAll(d, UsVolumeUnits[6..], v) == RegisterAll(r, UsVolumeUnits[7..], v)
    ensures r.items == VolumeItemsToQuart(v)
  {
    var us := UsVolumeUnits;
    RegisterFrom(d, us, 6, v);
    var r7 := WithUnit(d, Quart.(measure := v));
    WithUnitOne(d, Quart.(measure := v));
    assert r7.items == d.items["quart" := Quart.(measure := v)]["quarts" := Quart.(measure := v)];
    r := r7;
  }

  /** Registering gallon. */
  lemma RegisterGallon(v: Measure, d: Dict<string, Unit>) returns (r: Dict<string, Unit>)
    requires d.items == VolumeItemsToQuart(v)
    ensures RegisterAll(d, UsVolumeUnits[7..], v) == RegisterAll(r, UsVolumeUnits[8..], v)
    ensures r.items == VolumeItemsToGallon(v)
  {
    var us := UsVolumeUnits;
    RegisterFrom(d, us, 7, v);
    var r8 := WithUnit(d, Gallon.(measure := v));
    WithUnitOne(d, Gallon.(measure := v));
    assert r8.items == d.items["gallon" := Gallon.(measure := v)]["gallons" := Gallon.(measure := v)];
    r := r8;
  }

  /** Registering bunch, whose alternate name is `sticks`. */
  lemma RegisterBunch(v: Measure, d: Dict<string, Unit>) returns (r: Dict<string, Unit>)
    requires d.items == VolumeItemsToGallon(v)
    ensures RegisterAll(d, UsVolumeUnits[8..], v) == RegisterAll(r, UsVolumeUnits[9..], v)
    ensures r.items == VolumeItems(v)
  {
    var us := UsVolumeUnits;
    RegisterFrom(d, us, 8, v);
    var r9 := WithUnit(d, Bunch.(measure := v));
    WithUnitOne(d, Bunch.(measure := v));
    assert r9.items == d.items["bunch" := Bunch.(measure := v)]["sticks" := Bunch.(measure := v)];
    r := r9;
  }

  /** The US volume units register without a ValueError on top of the metric
      ones. */
  lemma UsVolumeRegistry(v: Measure, d: Dict<string, Unit>)
    requires v.baseSpec == Liter
    requires d.items == SIItems(v.BaseUnit(), v)
    ensures RegisterAll(d, UsVolumeUnits, v).1 == None
    ensures RegisterAll(d, UsVolumeUnits, v).0.items == VolumeItems(v)
  {
    SIUnitsIgnoreMeasure(Liter, v);
    assert "milli" + "liter" == "milliliter";
    assert "centi" + "liter" == "centiliter";
    assert "deci" + "liter" == "deciliter";
    assert "deca" + "liter" == "decaliter";
    assert "hecto" + "liter" == "hectoliter";
    assert "kilo" + "liter" == "kiloliter";
    assert d.items == MetricVolumeItems(v);
    var d1 := RegisterTeaspoons(v, d);
    var d2 := RegisterFluidOunces(v, d1);
    var d3 := RegisterCup(v, d2);
    var d4 := RegisterPint(v, d3);
    var d5 := RegisterQuart(v, d4);
    var d6 := RegisterGallon(v, d5);
    var d7 := RegisterBunch(v, d6);
    assert UsVolumeUnits[0..] == UsVolumeUnits && UsVolumeUnits[9..] == [];
  }

  /** The Mass registry after gram and its SI units. */
  function MetricMassItems(m: Measure): map<string, Unit> {
    map["gram" := m.BaseUnit(),
        "milligram" := SIUnitsFromUnit(Gram)[0].(measure := m),
        "centigram" := SIUnitsFromUnit(Gram)[1].(measure := m),
        "decigram" := SIUnitsFromUnit(Gram)[2].(measure := m),
        "decagram" := SIUnitsFromUnit(Gram)[3].(measure := m),
        "hectogram" := SIUnitsFromUnit(Gram)[4].(measure := m),
        "kilogram" := SIUnitsFromUnit(Gram)[5].(measure := m)]
  }

  /** The Mass registry after ounce and stick. */
  function MassItemsToStick(m: Measure): map<string, Unit> {
    MetricMassItems(m)
      ["ounce" := Ounce.(measure := m)]["ounces" := Ounce.(measure := m)]
      ["stick" := Stick.(measure := m)]["sticks" := Stick.(measure := m)]
  }

  /** The Mass registry after pound. */
  function MassItemsToPound(m: Measure): map<string, Unit> {
    MassItemsToStick(m)
      ["pound" := Pound.(measure := m)]["pounds" := Pound.(measure := m)]
  }

  /** The whole Mass registry: `sticks` names `stick` here. */
  function MassItems(m: Measure): map<string, Unit> {
    MassItemsToPound(m)
      ["head" := Head.(measure := m)]["heads" := Head.(measure := m)]
      ["clove" := Clove.(measure := m)]["cloves" := Clove.(measure := m)]
  }

  /** Registering ounce and stick. */
  lemma RegisterSticks(m: Measure, d: Dict<string, Unit>) returns (r: Dict<string, Unit>)
    requires d.items == MetricMassItems(m)
    ensures RegisterAll(d, UsMassUnits[0..], m) == RegisterAll(r, UsMassUnits[2..], m)
    ensures r.items == MassItemsToStick(m)
  {
    var us := UsMassUnits;
    RegisterFrom(d, us, 0, m);
    var r1 := WithUnit(d, Ounce.(measure := m));
    WithUnitOne(d, Ounce.(measure := m));
    assert r1.items == d.items["ounce" := Ounce.(measure := m)]["ounces" := Ounce.(measure := m)];
    RegisterFrom(r1, us, 1, m);
    var r2 := WithUnit(r1, Stick.(measure := m));
    WithUnitOne(r1, Stick.(measure := m));
    assert r2.items == r1.items["stick" := Stick.(measure := m)]["sticks" := Stick.(measure := m)];
    r := r2;
  }

  /** Registering pound. */
  lemma RegisterPound(m: Measure, d: Dict<string, Unit>) returns (r: Dict<string, Unit>)
    requires d.items == MassItemsToStick(m)
    ensures RegisterAll(d, UsMassUnits[2..], m) == RegisterAll(r, UsMassUnits[3..], m)
    ensures r.items == MassItemsToPound(m)
  {
    var us := UsMassUnits;
    RegisterFrom(d, us, 2, m);
    var r3 := WithUnit(d, Pound.(measure := m));
    WithUnitOne(d, Pound.(measure := m));
    assert r3.items == d.items["pound" := Pound.(measure := m)]["pounds" := Pound.(measure := m)];
    r := r3;
  }

  /** Registering head and clove. */
  lemma RegisterProduce(m: Measure, d: Dict<string, Unit>) returns (r: Dict<string, Unit>)
    requires d.items == MassItemsToPound(m)
    ensures RegisterAll(d, UsMassUnits[3..], m) == RegisterAll(r, UsMassUnits[5..], m)
    ensures r.items == MassItems(m)
  {
    var us := UsMassUnits;
    RegisterFrom(d, us, 3, m);
    var r4 := WithUnit(d, Head.(measure := m));
    WithUnitOne(d, Head.(measure := m));
    assert r4.items == d.items["head" := Head.(measure := m)]["heads" := Head.(measure := m)];
    RegisterFrom(r4, us, 4, m);
    var r5 := WithUnit(r4, Clove.(measure := m));
    WithUnitOne(r4, Clove.(measure := m));
    assert r5.items == r4.items["clove" := Clove.(measure := m)]["cloves" := Clove.(measure := m)];
    r := r5;
  }

  /** The US mass units register without a ValueError on top of the metric
      ones. */
  lemma UsMassRegistry(m: Measure, d: Dict<string, Unit>)
    requires m.baseSpec == Gram
    requires d.items == SIItems(m.BaseUnit(), m)
    ensures RegisterAll(d, UsMassUnits, m).1 == None
    ensures RegisterAll(d, UsMassUnits, m).0.items == MassItems(m)
  {
    SIUnitsIgnoreMeasure(Gram, m);
    assert "milli" + "gram" == "milligram";
    assert "centi" + "gram" == "centigram";
    assert "deci" + "gram" == "decigram";
    assert "deca" + "gram" == "decagram";
    assert "hecto" + "gram" == "hectogram";
    assert "kilo" + "gram" == "kilogram";
    assert d.items == MetricMassItems(m);
    var d1 := RegisterSticks(m, d);
    var d2 := RegisterPound(m, d1);
    var d3 := RegisterProduce(m, d2);
    assert UsMassUnits[0..] == UsMassUnits && UsMassUnits[5..] == [];
  }

  /** The Temperature registry. */
  function TemperatureItems(t: Measure): map<string, Unit> {
    map["celsius" := t.BaseUnit()]
      ["kelvin" := Kelvin.(measure := t)]
      ["fahrenheit" := Fahrenheit.(measure := t)]
      ["thermostat" := Thermostat.(measure := t)]
  }

  lemma TemperatureRegistry(t: Measure)
    requires t.baseSpec == Celsius
    ensures RegisterAll(WithUnit(Empty(), t.BaseUnit()), TemperatureUnits, t).1 == None
    ensures RegisterAll(WithUnit(Empty(), t.BaseUnit()), TemperatureUnits, t).0.items == TemperatureItems(t)
  {
    var us, r0 := TemperatureUnits, WithUnit(Empty(), t.BaseUnit());
    RegisterFrom(r0, us, 0, t);
    var r1 := WithUnit(r0, Kelvin.(measure := t));
    assert r1.items == r0.items["kelvin" := Kelvin.(measure := t)];
    RegisterFrom(r1, us, 1, t);
    var r2 := WithUnit(r1, Fahrenheit.(measure := t));
    assert r2.items == r1.items["fahrenheit" := Fahrenheit.(measure := t)];
    RegisterFrom(r2, us, 2, t);
    var r3 := WithUnit(r2, Thermostat.(measure := t));
    assert r3.items == r2.items["thermostat" := Thermostat.(measure := t)];
    assert us[0..] == us && us[3..] == [];
  }

  /** The Time registry. */
  function TimeItems(t: Measure): map<string, Unit> {
    map["second" := t.BaseUnit()]
      ["minute" := Minute.(measure := t)]
      ["hour" := Hour.(measure := t)]
  }

  lemma TimeRegistry(t: Measure)
    requires t.baseSpec == Second
    ensures RegisterAll(WithUnit(Empty(), t.BaseUnit()), TimeUnits, t).1 == None
    ensures RegisterAll(WithUnit(Empty(), t.BaseUnit()), TimeUnits, t).0.items == TimeItems(t)
  {
    var us, r0 := TimeUnits, WithUnit(Empty(), t.BaseUnit());
    RegisterFrom(r0, us, 0, t);
    var r1 := WithUnit(r0, Minute.(measure := t));
    assert r1.items == r0.items["minute" := Minute.(measure := t)];
    RegisterFrom(r1, us, 1, t);
    var r2 := WithUnit(r1, Hour.(measure := t));
    assert r2.items == r1.items["hour" := Hour.(measure := t)];
    assert us[0..] == us && us[2..] == [];
  }

  /** The Count registry. */
  function CountItems(c: Measure): map<string, Unit> {
    map["unit" := c.BaseUnit()]
      ["dozen" := Dozen.(measure := c)]
  }

  lemma CountRegistry(c: Measure)
    requires c.baseSpec == UnitOfCount
    ensures RegisterAll(WithUnit(Empty(), c.BaseUnit()), CountUnits, c).1 == None
    ensures RegisterAll(WithUnit(Empty(), c.BaseUnit()), CountUnits, c).0.items == CountItems(c)
  {
    var us, r0 := CountUnits, WithUnit(Empty(), c.BaseUnit());
    RegisterFrom(r0, us, 0, c);
    var r1 := WithUnit(r0, Dozen.(measure := c));
    assert r1.items == r0.items["dozen" := Dozen.(measure := c)];
    assert us[0..] == us && us[1..] == [];
  }

  // ----------------------------------------------------------------- Loading

  /** The measures the module defines when it is loaded. */
  datatype Measures = Measures(
    mass: Measure, volume: Measure, temperature: Measure,
    length: Measure, time: Measure, count: Measure)

  /** Volume's `milliliter` unit, the first SI unit of liter. */
  function Milliliter(volume: Measure): (u: Unit)
    ensures u.measure == volume && u.name == "milliliter" && u.converter == Linear(0.001, 0.0)
  {
    assert "milli" + "liter" == "milliliter";
    SIUnitsFromUnit(Liter)[0].(measure := volume)
  }

  /** The state the module leaves its measures in: six distinct measures, each
      holding exactly the units registered for it, and the two density
      transforms between Volume and Mass. */
  ghost predicate Loaded(c: Measures)
    reads c.mass, c.volume, c.temperature, c.length, c.time, c.count
  {
    && c.mass != c.volume && c.mass != c.temperature && c.mass != c.length && c.mass != c.time && c.mass != c.count
    && c.volume != c.temperature && c.volume != c.length && c.volume != c.time && c.volume != c.count
    && c.temperature != c.length && c.temperature != c.time && c.temperature != c.count
    && c.length != c.time && c.length != c.count && c.time != c.count
    && c.mass.Valid() && c.volume.Valid() && c.temperature.Valid()
    && c.length.Valid() && c.time.Valid() && c.count.Valid()
    && c.mass.name == "Mass" && c.mass.baseSpec == Gram && c.mass.units.items == MassItems(c.mass)
    && c.volume.name == "Volume" && c.volume.baseSpec == Liter && c.volume.units.items == VolumeItems(c.volume)
    && c.temperature.name == "Temperature" && c.temperature.baseSpec == Celsius
    && c.temperature.units.items == TemperatureItems(c.temperature)
    && c.length.name == "Length" && c.length.baseSpec == Meter
    && c.length.units.items == SIItems(c.length.BaseUnit(), c.length)
    && c.time.name == "Time" && c.time.baseSpec == Second && c.time.units.items == TimeItems(c.time)
    && c.count.name == "Count" && c.count.baseSpec == UnitOfCount && c.count.units.items == CountItems(c.count)
    && c.volume.transforms == map[c.mass := MultiplyByDensity(Milliliter(c.volume), c.mass.BaseUnit())]
    && c.mass.transforms == map[c.volume := DivideByDensity(c.mass.BaseUnit(), Milliliter(c.volume))]
    && c.temperature.transforms == map[] && c.length.transforms == map[]
    && c.time.transforms == map[] && c.count.transforms == map[]
  }

  /** `M = Measure(name, base)` followed by `M.addUnits(SIUnitsFromUnit(M.base))`,
      the two statements that define Mass, Volume and Length. */
  method NewMetricMeasure(name: string, base: Unit) returns (m: Measure)
    requires base.alternateNames == []
    ensures fresh(m) && m.Valid()
    ensures m.name == name && m.baseSpec == base
    ensures m.units.items == SIItems(m.BaseUnit(), m) && m.transforms == map[]
  {
    m := new Measure(name, base);
    SIRegistry(m.BaseUnit(), m);
    var err := m.AddUnits(SIUnitsFromUnit(m.BaseUnit()));
    assert err.None?;
  }

  /** `Temperature = Measure(...)` and its `addUnits` call. */
  method NewTemperature() returns (t: Measure)
    ensures fresh(t) && t.Valid()
    ensures t.name == "Temperature" && t.baseSpec == Celsius
    ensures t.units.items == TemperatureItems(t) && t.transforms == map[]
  {
    t := new Measure("Temperature", Celsius);
    TemperatureRegistry(t);
    var err := t.AddUnits(TemperatureUnits);
    assert err.None?;
  }

  /** `Time = Measure(...)` and its `addUnits` call. */
  method NewTime() returns (t: Measure)
    ensures fresh(t) && t.Valid()
    ensures t.name == "Time" && t.baseSpec == Second
    ensures t.units.items == TimeItems(t) && t.transforms == map[]
  {
    t := new Measure("Time", Second);
    TimeRegistry(t);
    var err := t.AddUnits(TimeUnits);
    assert err.None?;
  }

  /** `Count = Measure(...)` and its `addUnits` call. */
  method NewCount() returns (c: Measure)
    ensures fresh(c) && c.Valid()
    ensures c.name == "Count" && c.baseSpec == UnitOfCount
    ensures c.units.items == CountItems(c) && c.transforms == map[]
  {
    c := new Measure("Count", UnitOfCount);
    CountRegistry(c);
    var err := c.AddUnits(CountUnits);
    assert err.None?;
  }

  /** `milliliter = Volume.milliliter`, `gram = Mass.gram` and the two
      `addTransform` calls. */
  method AddDensityTransforms(volume: Measure, mass: Measure)
    requires volume != mass
    requires volume.baseSpec == Liter && volume.units.items == SIItems(volume.BaseUnit(), volume)
    requires mass.baseSpec == Gram && mass.units.items == SIItems(mass.BaseUnit(), mass)
    requires volume.transforms == map[] && mass.transforms == map[]
    modifies volume`transforms, mass`transforms
    ensures volume.transforms == map[mass := MultiplyByDensity(Milliliter(volume), mass.BaseUnit())]
    ensures mass.transforms == map[volume := DivideByDensity(mass.BaseUnit(), Milliliter(volume))]
  {
    SIUnitsIgnoreMeasure(Liter, volume);
    assert volume.units.items == MetricVolumeItems(volume) by {
      assert "milli" + "liter" == "milliliter" && "centi" + "liter" == "centiliter";
      assert "deci" + "liter" == "deciliter" && "deca" + "liter" == "decaliter";
      assert "hecto" + "liter" == "hectoliter" && "kilo" + "liter" == "kiloliter";
    }
    var milliliter := volume.units.items["milliliter"];
    var gram := mass.units.items["gram"];
    assert milliliter == Milliliter(volume) && gram == mass.BaseUnit();
    volume.AddTransform(mass, MultiplyByDensity(milliliter, gram));
    mass.AddTransform(volume, DivideByDensity(gram, milliliter));
  }

  /** The `addUnits` calls for the US volume and mass units. */
  method AddUsUnits(volume: Measure, mass: Measure)
    requires volume.Valid() && volume.baseSpec == Liter && volume.units.items == SIItems(volume.BaseUnit(), volume)
    requires mass.Valid() && mass.baseSpec == Gram && mass.units.items == SIItems(mass.BaseUnit(), mass)
    requires volume != mass
    modifies volume`units, mass`units
    ensures volume.Valid() && volume.units.items == VolumeItems(volume)
    ensures mass.Valid() && mass.units.items == MassItems(mass)
  {
    UsVolumeRegistry(volume, volume.units);
    var err := volume.AddUnits(UsVolumeUnits);
    assert err.None?;
    UsMassRegistry(mass, mass.units);
    err := mass.AddUnits(UsMassUnits);
    assert err.None?;
  }

  /** The module's top-level statements, in order.  Every `addUnits` call
      succeeds, so loading raises nothing. */
  method Load() returns (c: Measures)
    ensures fresh(c.mass) && fresh(c.volume) && fresh(c.temperature)
    ensures fresh(c.length) && fresh(c.time) && fresh(c.count)
    ensures Loaded(c)
  {
    var mass := NewMetricMeasure("Mass", Gram);
    var volume := NewMetricMeasure("Volume", Liter);
    var temperature := NewTemperature();
    var length := NewMetricMeasure("Length", Meter);
    var time := NewTime();
    var count := NewCount();
    AddDensityTransforms(volume, mass);
    AddUsUnits(volume, mass);
    c := Measures(mass, volume, temperature, length, time, count);
  }

  // ------------------------------------------------------ available_measures

  /** Merging Volume, then Mass, then Count into one table: a later
      dictionary's value wins. */
  lemma MergeLookup(volume: Dict<string, Unit>, mass: Dict<string, Unit>, count: Dict<string, Unit>)
    requires WellFormed(volume) && WellFormed(mass) && WellFormed(count)
    ensures WellFormed(Update(Update(volume, mass), count))
    ensures forall k :: k in Update(Update(volume, mass), count).items <==>
      k in volume.items || k in mass.items || k in count.items
    ensures forall k :: k in Update(Update(volume, mass), count).items ==>
      Update(Update(volume, mass), count).items[k] ==
        (if k in count.items then count.items[k] else if k in mass.items then mass.items[k] else volume.items[k])
  {
    UpdateLookup(volume, mass);
    UpdateLookup(Update(volume, mass), count);
  }

  /** ... and Volume's keys keep their places at the front. */
  lemma MergeOrder(volume: Dict<string, Unit>, mass: Dict<string, Unit>, count: Dict<string, Unit>)
    requires WellFormed(volume) && WellFormed(mass) && WellFormed(count)
    ensures |volume.keys| <= |Update(Update(volume, mass), count).keys|
    ensures Update(Update(volume, mass), count).keys[..|volume.keys|] == volume.keys
  {
    var d1 := Update(volume, mass);
    UpdateKeysPrefix(volume, mass, mass.keys);
    var d2 := Update(d1, count);
    UpdateKeysPrefix(d1, count, count.keys);
    assert d2.keys[..|volume.keys|] == d2.keys[..|d1.keys|][..|volume.keys|];
  }

  /** With no key shared by Mass and Count, the two `update` calls after the
      merge copy values the table already holds. */
  lemma MergeSettled(volume: Dict<string, Unit>, mass: Dict<string, Unit>, count: Dict<string, Unit>)
    requires WellFormed(volume) && WellFormed(mass) && WellFormed(count)
    requires mass.items.Keys * count.items.Keys == {}
    ensures var d := Update(Update(volume, mass), count);
      Update(Update(d, mass), count) == d
  {
    var d := Update(Update(volume, mass), count);
    MergeLookup(volume, mass, count);
    forall i | 0 <= i < |mass.keys|
      ensures mass.keys[i] in d.items && d.items[mass.keys[i]] == mass.items[mass.keys[i]]
    {
      var k := mass.keys[i];
      assert k in mass.items;
      assert k !in count.items by {
        assert k !in mass.items.Keys * count.items.Keys;
      }
    }
    UpdateKeysUnchanged(d, mass, mass.keys);
    forall i | 0 <= i < |count.keys|
      ensures count.keys[i] in d.items && d.items[count.keys[i]] == count.items[count.keys[i]]
    {
      assert count.keys[i] in count.items;
    }
    UpdateKeysUnchanged(d, count, count.keys);
  }

  /** `available_measures = dict(Volume.units, **Mass.units, **Count.units)`
      followed by `.update(Mass.units)` and `.update(Count.units)`.  A key
      of both Mass and Count is passed twice as a keyword argument, which is
      a TypeError; otherwise a Count unit shadows a Mass unit of the same
      name, which shadows a Volume unit. */
  function AvailableMeasures(volume: Dict<string, Unit>, mass: Dict<string, Unit>, count: Dict<string, Unit>): (r: Result<Dict<string, Unit>>)
    requires WellFormed(volume) && WellFormed(mass) && WellFormed(count)
    ensures r.Err? <==> exists k :: k in mass.items && k in count.items
    ensures r.Err? ==> r.error == TypeError
    ensures r.Ok? ==> WellFormed(r.value)
    ensures r.Ok? ==> |volume.keys| <= |r.value.keys| && r.value.keys[..|volume.keys|] == volume.keys
    ensures r.Ok? ==> forall k :: k in r.value.items <==> k in volume.items || k in mass.items || k in count.items
    ensures r.Ok? ==> forall k :: k in r.value.items ==>
      r.value.items[k] == (if k in count.items then count.items[k] else if k in mass.items then mass.items[k] else volume.items[k])
  {
    if mass.items.Keys * count.items.Keys != {} then
      var k :| k in mass.items.Keys * count.items.Keys;
      Err(TypeError)
    else
      assert forall k :: k in mass.items && k in count.items ==> k in mass.items.Keys * count.items.Keys;
      MergeLookup(volume, mass, count);
      MergeOrder(volume, mass, count);
      MergeSettled(volume, mass, count);
      var merged := Update(Update(volume, mass), count);
      Ok(Update(Update(merged, mass), count))
  }

  /** Volume's metric names map to the base unit and its SI units. */
  lemma VolumeMetricNames(v: Measure)
    requires v.units.items == VolumeItems(v)
    ensures var u := v.units.items;
      && "liter" in u && u["liter"] == v.BaseUnit()
      && "milliliter" in u && u["milliliter"] == Milliliter(v)
  {
    assert "milli" + "liter" == "milliliter";
  }

  /** Volume's US names, among them the alternate names; `sticks` is the
      alternate name of `bunch`. */
  lemma VolumeUsNames(v: Measure)
    requires v.units.items == VolumeItems(v)
    ensures var u := v.units.items;
      && "cups" in u && u["cups"] == Cup.(measure := v)
      && "fluid ounces" in u && u["fluid ounces"] == FluidOunce.(measure := v)
      && "sticks" in u && u["sticks"] == Bunch.(measure := v)
  {
  }

  /** A few names of the Mass registry; `sticks` is the alternate name of
      `stick`, and no Count name is a Mass name. */
  lemma MassNames(m: Measure)
    requires m.units.items == MassItems(m)
    ensures var u := m.units.items;
      && "gram" in u && u["gram"] == m.BaseUnit()
      && "pounds" in u && u["pounds"] == Pound.(measure := m)
      && "sticks" in u && u["sticks"] == Stick.(measure := m)
      && "unit" !in u && "dozen" !in u
  {
  }

  /** With the loaded Mass and Count registries the table is built without
      error, whatever the Volume registry holds; `sticks` names the Mass unit
      `stick`, since Mass is merged after Volume (whose `sticks` is `bunch`),
      and `dozen` is the Count unit. */
  lemma AvailableSticks(volume: Dict<string, Unit>, mass: Measure, count: Measure)
    requires WellFormed(volume)
    requires WellFormed(mass.units) && mass.units.items == MassItems(mass)
    requires WellFormed(count.units) && count.units.items == CountItems(count)
    ensures var r := AvailableMeasures(volume, mass.units, count.units);
      && r.Ok?
      && "sticks" in r.value.items && r.value.items["sticks"] == Stick.(measure := mass)
      && "dozen" in r.value.items && r.value.items["dozen"] == Dozen.(measure := count)
  {
    MassNames(mass);
    assert count.units.items.Keys == {"unit", "dozen"};
    ShadowedNames(volume, mass.units, count.units);
  }

  /** The lookups `AvailableSticks` needs, on registries of any content. */
  lemma ShadowedNames(v: Dict<string, Unit>, m: Dict<string, Unit>, n: Dict<string, Unit>)
    requires WellFormed(v) && WellFormed(m) && WellFormed(n)
    requires "unit" !in m.items && "dozen" !in m.items && n.items.Keys == {"unit", "dozen"}
    requires "sticks" in m.items
    ensures var r := AvailableMeasures(v, m, n);
      && r.Ok?
      && "sticks" in r.value.items && r.value.items["sticks"] == m.items["sticks"]
      && "dozen" in r.value.items && r.value.items["dozen"] == n.items["dozen"]
  {
    assert !exists k :: k in m.items && k in n.items;
  }

  // -------------------------------------------------------------- Examples

  /** The catalog's Volume and Mass units convert through the density
      transforms. */
  lemma LoadedDensity(c: Measures)
    requires Loaded(c)
    ensures DensityTransforms(c.volume, c.mass, Milliliter(c.volume), c.mass.BaseUnit())
  {
  }

  /** The temperature conversions the module documents. */
  lemma TemperatureExamples(t: Measure)
    requires t.baseSpec == Celsius && t.units.items == TemperatureItems(t)
    ensures var u := t.units.items;
      && "celsius" in u && "kelvin" in u && "fahrenheit" in u && "thermostat" in u
      && Amount(0.0, u["kelvin"]).To(UnitValue(u["celsius"])).Ok?
      && Amount(0.0, u["kelvin"]).To(UnitValue(u["celsius"])).value == Amount(-273.15, u["celsius"])
      && Amount(37.7, u["celsius"]).To(UnitValue(u["fahrenheit"])).Ok?
      && Amount(37.7, u["celsius"]).To(UnitValue(u["fahrenheit"])).value == Amount(99.86, u["fahrenheit"])
      && Amount(210.0, u["celsius"]).To(UnitValue(u["thermostat"])).Ok?
      && Amount(210.0, u["celsius"]).To(UnitValue(u["thermostat"])).value == Amount(7.0, u["thermostat"])
      && Amount(6.0, u["thermostat"]).To(UnitValue(u["fahrenheit"])).Ok?
      && Amount(6.0, u["thermostat"]).To(UnitValue(u["fahrenheit"])).value == Amount(356.0, u["fahrenheit"])
  {
  }

  /** Volume conversions: 2 l is 200 cl, and a cup is 236.588 ml (the US
      legal cup; the module's own documentation still shows 240 ml).  The
      units are those `VolumeMetricNames` and `VolumeUsNames` look up. */
  lemma VolumeExamples(v: Measure)
    requires v.baseSpec == Liter
    ensures var cl, ml, cup := SIUnitsFromUnit(Liter)[1].(measure := v), Milliliter(v), Cup.(measure := v);
      && Amount(2.0, v.BaseUnit()).To(UnitValue(cl)).Ok?
      && Amount(2.0, v.BaseUnit()).To(UnitValue(cl)).value == Amount(200.0, cl)
      && Amount(1.0, cup).To(UnitValue(ml)).Ok?
      && Amount(1.0, cup).To(UnitValue(ml)).value == Amount(236.588, ml)
  {
  }

  /** One cup of flour is 165.6116 g and one cup of sugar 283.9056 g, the
      volume in milliliters times the density. */
  lemma CupToGrams(c: Measures)
    requires Loaded(c)
    ensures var cup, g := Cup.(measure := c.volume), c.mass.BaseUnit();
      && Ingredient(Amount(1.0, cup), Flour).To(UnitValue(g)).Ok?
      && Ingredient(Amount(1.0, cup), Flour).To(UnitValue(g)).value == Ingredient(Amount(165.6116, g), Flour)
      && Ingredient(Amount(1.0, cup), Sugar).To(UnitValue(g)).Ok?
      && Ingredient(Amount(1.0, cup), Sugar).To(UnitValue(g)).value == Ingredient(Amount(283.9056, g), Sugar)
  {
    var cup, g, ml := Cup.(measure := c.volume), c.mass.BaseUnit(), Milliliter(c.volume);
    LoadedDensity(c);
    VolumeToMass(c.volume, c.mass, ml, g, Ingredient(Amount(1.0, cup), Flour));
    VolumeToMass(c.volume, c.mass, ml, g, Ingredient(Amount(1.0, cup), Sugar));
    var inMl := Amount(1.0, cup).To(UnitValue(ml));
    assert inMl.Ok? && inMl.value.value == 236.588;
  }

  /** A stick has the neutral converter, so a stick of butter is one gram
      and 125 g of butter are 125 sticks (the module's documentation still
      shows the quarter-pound stick it has commented out). */
  lemma StickExamples(c: Measures)
    requires Loaded(c)
    ensures var stick, g := Stick.(measure := c.mass), c.mass.BaseUnit();
      && Ingredient(Amount(1.0, stick), Butter).To(UnitValue(g)) == Ok(Ingredient(Amount(1.0, g), Butter))
      && Ingredient(Amount(125.0, g), Butter).To(UnitValue(stick)) == Ok(Ingredient(Amount(125.0, stick), Butter))
  {
  }

  /** `42 * Mass.gram * Flour` is 42 g of flour, `3 * Amount(5, Volume.liter)`
      is 15 l and `Amount(42, Mass.gram) / 7` is 6 g. */
  lemma ArithmeticExamples(c: Measures)
    requires Loaded(c)
    ensures var g, l := c.mass.BaseUnit(), c.volume.BaseUnit();
      && g.Times(Number(42.0)) == Some(Amount(42.0, g))
      && Amount(42.0, g).Times(ElementValue(Flour)) == Ok(IngredientValue(Ingredient(Amount(42.0, g), Flour)))
      && Amount(5.0, l).Times(Number(3.0)) == Ok(AmountValue(Amount(15.0, l)))
      && Amount(42.0, g).DividedBy(Number(7.0)).Ok?
      && Amount(42.0, g).DividedBy(Number(7.0)).value == Amount(6.0, g)
  {
  }
}
