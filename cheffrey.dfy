/** The `cheffrey` recipe module: ingredients that add and scale, a shopping
    list that merges the ingredients of several recipes by element name, and
    the `present` display of an amount in whole units and eighths. */
module Cheffrey {
  import opened Results
  import opened OrderedDict
  import opened Sugarcube
  import opened ConversionLaws

  // ---------------------------------------------------------------- Recipe

  /** A named list of ingredients with optional instructions. */
  datatype Recipe = Recipe(name: string, ingredients: seq<Ingredient>, instructions: Option<string>)

  // ------------------------------------------------ Ingredient arithmetic

  /** The right operand of `+` and `*`, as the source tests it at run time:
      one of its own ingredients, an `int` or `float`, or anything else
      (including a plain sugarcube Ingredient, which is not an instance of
      the subclass). */
  datatype Operand = OfIngredient(ingredient: Ingredient) | OfNumber(x: real) | OfOther

  /** `ingredient + other` */
  function Add(left: Ingredient, right: Operand): (r: Result<Ingredient>)
    reads if right.OfIngredient? then {right.ingredient.amount.unit.measure} else {}
    ensures right.OfOther? ==> r == Err(TypeError)
    ensures right.OfIngredient? && right.ingredient.element.name != left.element.name ==> r == Err(TypeError)
    ensures r.Ok? ==> r.value.element == left.element && r.value.amount.unit == left.amount.unit
    ensures right.OfNumber? ==> r.Ok? && r.value.amount.value == left.amount.value + right.x
    ensures right.OfIngredient? && right.ingredient.element.name == left.element.name ==>
      var converted := right.ingredient.To(UnitValue(left.amount.unit));
      && (r.Ok? <==> converted.Ok?)
      && (r.Ok? ==> r.value.amount.value == left.amount.value + converted.value.amount.value)
      && (r.Err? ==> r.error == converted.error)
  {
    match right
    case OfIngredient(other) =>
      if left.element.name != other.element.name then Err(TypeError)
      else
        var converted :- other.To(UnitValue(left.amount.unit));
        Ok(Ingredient(Amount(left.amount.value + converted.amount.value, left.amount.unit), left.element))
    case OfNumber(x) =>
      Ok(Ingredient(Amount(left.amount.value + x, left.amount.unit), left.element))
    case OfOther =>
      Err(TypeError)
  }

  /** `ingredient * other`, and `other * ingredient` through `__rmul__`. */
  function Mul(left: Ingredient, right: Operand): (r: Result<Ingredient>)
    ensures !right.OfNumber? ==> r == Err(TypeError)
    ensures right.OfNumber? ==> r.Ok? && r.value.element == left.element && r.value.amount.unit == left.amount.unit
    ensures right.OfNumber? ==> r.value.amount.value == left.amount.value * right.x
  {
    if right.OfNumber? then Ok(Ingredient(Amount(left.amount.value * right.x, left.amount.unit), left.element))
    else Err(TypeError)
  }

  /** Adding zero gives back the same ingredient. */
  lemma AddZero(i: Ingredient)
    ensures Add(i, OfNumber(0.0)) == Ok(i)
  {
  }

  /** Two ingredients of one element in one unit add their values, in
      either order. */
  lemma AddSameUnit(a: Ingredient, b: Ingredient)
    requires a.element == b.element && a.amount.unit == b.amount.unit
    ensures Add(a, OfIngredient(b)).Ok? && Add(b, OfIngredient(a)).Ok?
    ensures Add(a, OfIngredient(b)).value.amount.value == a.amount.value + b.amount.value
    ensures Add(a, OfIngredient(b)) == Add(b, OfIngredient(a))
  {
  }

  /** Across two units of one measure the right operand goes through the
      measure's base unit into the left operand's unit. */
  lemma AddAcrossUnits(a: Ingredient, b: Ingredient)
    requires a.element.name == b.element.name
    requires Convertible(a.amount.unit) && Convertible(b.amount.unit)
    requires a.amount.unit.measure == b.amount.unit.measure
    ensures Add(a, OfIngredient(b)).Ok?
    ensures Add(a, OfIngredient(b)).value.amount.value ==
      a.amount.value + FromBaseValue(a.amount.unit, BaseValue(b.amount))
  {
    ToThroughBase(b.amount, a.amount.unit);
  }

  /** Scaling twice is scaling by the product; scaling by one changes nothing. */
  lemma MulComposes(i: Ingredient, x: real, y: real)
    ensures Mul(i, OfNumber(1.0)) == Ok(i)
    ensures Mul(Mul(i, OfNumber(x)).value, OfNumber(y)) == Mul(i, OfNumber(x * y))
  {
    var once := Mul(i, OfNumber(x)).value;
    var twice := Mul(once, OfNumber(y));
    var direct := Mul(i, OfNumber(x * y));
    assert (i.amount.value * x) * y == i.amount.value * (x * y);
    assert twice.value.amount == direct.value.amount;
  }

  // --------------------------------------------------------- Shopping list

  /** The ingredients of the recipes, recipe after recipe. */
  function Flatten(recipes: seq<Recipe>): (items: seq<Ingredient>)
  {
    if recipes == [] then []
    else Flatten(recipes[..|recipes| - 1]) + recipes[|recipes| - 1].ingredients
  }

  lemma {:induction false} FlattenAppend(a: seq<Recipe>, b: seq<Recipe>)
    ensures Flatten(a + b) == Flatten(a) + Flatten(b)
    decreases |b|
  {
    if b == [] {
      assert a + b == a;
    } else {
      var init := b[..|b| - 1];
      assert (a + b)[..|a + b| - 1] == a + init;
      assert (a + b)[|a + b| - 1] == b[|b| - 1];
      FlattenAppend(a, init);
    }
  }

  /** The element names of the ingredients, in order. */
  function Names(items: seq<Ingredient>): (names: seq<string>)
    ensures |names| == |items|
    ensures forall j :: 0 <= j < |items| ==> names[j] == items[j].element.name
  {
    if items == [] then [] else Names(items[..|items| - 1]) + [items[|items| - 1].element.name]
  }

  /** The names with repetitions dropped, each where it first occurs. */
  function Dedup(names: seq<string>): seq<string>
  {
    if names == [] then []
    else
      var seen := Dedup(names[..|names| - 1]);
      if names[|names| - 1] in seen then seen else seen + [names[|names| - 1]]
  }

  /** `Dedup` keeps each name once, drops none, and a prefix of the names
      gives a prefix of the result: names seen earlier come earlier. */
  lemma {:induction false} DedupSpec(names: seq<string>, n: nat)
    requires n <= |names|
    ensures forall i, j :: 0 <= i < j < |Dedup(names)| ==> Dedup(names)[i] != Dedup(names)[j]
    ensures forall k :: k in Dedup(names) <==> k in names
    ensures |Dedup(names[..n])| <= |Dedup(names)| && Dedup(names)[..|Dedup(names[..n])|] == Dedup(names[..n])
  {
    if names != [] {
      var init := names[..|names| - 1];
      if n == |names| {
        assert names[..n] == names;
        DedupSpec(init, |init|);
      } else {
        assert names[..n] == init[..n];
        DedupSpec(init, n);
      }
    }
  }

  /** The index of the first ingredient named `k`. */
  function FirstIndex(items: seq<Ingredient>, k: string): (j: nat)
    requires k in Names(items)
    ensures j < |items| && items[j].element.name == k
    ensures forall i :: 0 <= i < j ==> items[i].element.name != k
    decreases |items|
  {
    if items[0].element.name == k then 0
    else
      assert k in Names(items[1..]) by {
        var i :| 0 <= i < |items| && Names(items)[i] == k;
        assert Names(items[1..])[i - 1] == k;
      }
      1 + FirstIndex(items[1..], k)
  }

  /** Appending an ingredient does not move the first occurrence of a name
      already present. */
  lemma FirstIndexExtend(p: seq<Ingredient>, x: Ingredient, k: string)
    requires k in Names(p)
    ensures k in Names(p + [x]) && FirstIndex(p + [x], k) == FirstIndex(p, k)
  {
    var b := FirstIndex(p, k);
    assert Names(p + [x])[b] == k;
    var a := FirstIndex(p + [x], k);
    assert a <= b;
  }

  /** Ingredient `x`'s value in unit `u`, or 0 when it does not convert. */
  function ValueIn(x: Ingredient, u: Unit): real
    reads x.amount.unit.measure
  {
    var converted := x.To(UnitValue(u));
    if converted.Ok? then converted.value.amount.value else 0.0
  }

  /** Any ingredient's value in its own unit is its value. */
  lemma ValueInOwnUnit(x: Ingredient)
    ensures ValueIn(x, x.amount.unit) == x.amount.value
  {
  }

  /** The sum of the values, in unit `u`, of the ingredients named `k`. */
  function Total(items: seq<Ingredient>, k: string, u: Unit): real
    reads set x | x in items :: x.amount.unit.measure
  {
    if items == [] then 0.0
    else
      var x := items[|items| - 1];
      Total(items[..|items| - 1], k, u) + (if x.element.name == k then ValueIn(x, u) else 0.0)
  }

  lemma {:induction false} TotalAbsent(items: seq<Ingredient>, k: string, u: Unit)
    requires k !in Names(items)
    ensures Total(items, k, u) == 0.0
  {
    if items != [] {
      var init := items[..|items| - 1];
      forall i | 0 <= i < |init|
        ensures Names(init)[i] != k
      {
        assert init[i] == items[i];
      }
      TotalAbsent(init, k, u);
    }
  }

  /** `shopping_list[name] += ingredient` or `shopping_list[name] = ingredient`. */
  function Step(list: Dict<string, Ingredient>, x: Ingredient): Result<Dict<string, Ingredient>>
    reads x.amount.unit.measure
  {
    var name := x.element.name;
    if name in list.items then
      var sum :- Add(list.items[name], OfIngredient(x));
      Ok(Put(list, name, sum))
    else
      Ok(Put(list, name, x))
  }

  /** The shopping list built from the ingredients in order; the first
      failing `+=` ends the fold with its error. */
  function Aggregate(items: seq<Ingredient>): Result<Dict<string, Ingredient>>
    reads set x | x in items :: x.amount.unit.measure
  {
    if items == [] then Ok(Empty())
    else
      var list :- Aggregate(items[..|items| - 1]);
      Step(list, items[|items| - 1])
  }

  lemma AggregateNext(p: seq<Ingredient>, x: Ingredient)
    ensures Aggregate(p + [x]) == (var list :- Aggregate(p); Step(list, x))
  {
    assert (p + [x])[..|p|] == p;
  }

  /** Once a `+=` has failed, later ingredients change nothing. */
  lemma {:induction false} AggregateErrSticks(p: seq<Ingredient>, q: seq<Ingredient>)
    requires Aggregate(p).Err?
    ensures Aggregate(p + q) == Aggregate(p)
    decreases |q|
  {
    if q == [] {
      assert p + q == p;
    } else {
      var init := q[..|q| - 1];
      AggregateErrSticks(p, init);
      assert p + q == (p + init) + [q[|q| - 1]];
      AggregateNext(p + init, q[|q| - 1]);
    }
  }

  /** `create_shopping_list(recipes)` */
  method CreateShoppingList(recipes: seq<Recipe>) returns (r: Result<Dict<string, Ingredient>>)
    ensures r == Aggregate(Flatten(recipes))
  {
    var shoppingList := Empty();
    var i := 0;
    while i < |recipes|
      invariant 0 <= i <= |recipes|
      invariant Aggregate(Flatten(recipes[..i])) == Ok(shoppingList)
    {
      var ingredients := recipes[i].ingredients;
      var done := Flatten(recipes[..i]);
      var j := 0;
      assert done + ingredients[..j] == done;
      while j < |ingredients|
        invariant 0 <= j <= |ingredients|
        invariant Aggregate(done + ingredients[..j]) == Ok(shoppingList)
      {
        var ingredient := ingredients[j];
        var name := ingredient.element.name;
        ShoppingListNext(done, ingredients, j);
        if name in shoppingList.items {
          var sum := Add(shoppingList.items[name], OfIngredient(ingredient));
          if sum.Err? {
            ShoppingListAbort(recipes, i, j);
            return Err(sum.error);
          }
          shoppingList := Put(shoppingList, name, sum.value);
        } else {
          shoppingList := Put(shoppingList, name, ingredient);
        }
        j := j + 1;
      }
      FlattenNext(recipes, i);
      assert ingredients[..j] == ingredients;
      i := i + 1;
    }
    assert recipes[..i] == recipes;
    return Ok(shoppingList);
  }

  lemma ShoppingListNext(done: seq<Ingredient>, ingredients: seq<Ingredient>, j: nat)
    requires j < |ingredients|
    ensures Aggregate(done + ingredients[..j + 1]) ==
      (var list :- Aggregate(done + ingredients[..j]); Step(list, ingredients[j]))
  {
    assert done + ingredients[..j + 1] == (done + ingredients[..j]) + [ingredients[j]];
    AggregateNext(done + ingredients[..j], ingredients[j]);
  }

  lemma FlattenNext(recipes: seq<Recipe>, i: nat)
    requires i < |recipes|
    ensures Flatten(recipes[..i + 1]) == Flatten(recipes[..i]) + recipes[i].ingredients
  {
    assert recipes[..i + 1][..i] == recipes[..i];
  }

  /** A failing `+=` for the `j`-th ingredient of recipe `i` is the result
      of the whole fold. */
  lemma ShoppingListAbort(recipes: seq<Recipe>, i: nat, j: nat)
    requires i < |recipes| && j < |recipes[i].ingredients|
    requires Aggregate(Flatten(recipes[..i]) + recipes[i].ingredients[..j + 1]).Err?
    ensures Aggregate(Flatten(recipes)) == Aggregate(Flatten(recipes[..i]) + recipes[i].ingredients[..j + 1])
  {
    var ingredients := recipes[i].ingredients;
    var head := Flatten(recipes[..i]) + ingredients[..j + 1];
    var tail := ingredients[j + 1..] + Flatten(recipes[i + 1..]);
    FlattenSplit(recipes, i);
    Regroup(Flatten(recipes[..i]), ingredients, Flatten(recipes[i + 1..]), j + 1);
    AggregateErrSticks(head, tail);
  }

  lemma Regroup<T>(a: seq<T>, b: seq<T>, c: seq<T>, n: nat)
    requires n <= |b|
    ensures a + b + c == (a + b[..n]) + (b[n..] + c)
  {
    assert b == b[..n] + b[n..];
  }

  lemma FlattenSplit(recipes: seq<Recipe>, i: nat)
    requires i < |recipes|
    ensures Flatten(recipes) == Flatten(recipes[..i]) + recipes[i].ingredients + Flatten(recipes[i + 1..])
  {
    assert recipes == recipes[..i + 1] + recipes[i + 1..];
    FlattenAppend(recipes[..i + 1], recipes[i + 1..]);
    FlattenNext(recipes, i);
  }

  /** The keys of a shopping list built from `items`: one per element name,
      in order of first appearance. */
  ghost predicate KeysDescribe(d: Dict<string, Ingredient>, items: seq<Ingredient>)
  {
    && WellFormed(d)
    && d.keys == Dedup(Names(items))
    && (forall k :: k in d.items <==> k in Names(items))
  }

  /** The entries of a shopping list built from `items`: each keeps the
      element and the unit of its name's first ingredient, and its value is
      the sum of all ingredients of that name converted into that unit. */
  ghost predicate EntriesDescribe(d: Dict<string, Ingredient>, items: seq<Ingredient>)
    requires forall k :: k in d.items ==> k in Names(items)
    reads set x | x in items :: x.amount.unit.measure
  {
    forall k :: k in d.items ==> EntryAgrees(d.items[k], items, k)
  }

  /** What the shopping list holds, whenever the fold succeeds. */
  lemma {:induction false} AggregateSpec(items: seq<Ingredient>)
    ensures Aggregate(items).Ok? ==> KeysDescribe(Aggregate(items).value, items)
    ensures Aggregate(items).Ok? ==> EntriesDescribe(Aggregate(items).value, items)
  {
    if items != [] {
      var p, x := items[..|items| - 1], items[|items| - 1];
      assert items == p + [x];
      AggregateSpec(p);
      AggregateNext(p, x);
      if Aggregate(items).Ok? {
        var d := Aggregate(p).value;
        StepKeys(d, p, x);
        forall k | k in Step(d, x).value.items
          ensures EntryAgrees(Step(d, x).value.items[k], items, k)
        {
          StepEntry(d, p, x, k);
        }
      }
    }
  }

  /** `Names` of an extended list. */
  lemma NamesNext(p: seq<Ingredient>, x: Ingredient)
    ensures Names(p + [x]) == Names(p) + [x.element.name]
  {
    assert (p + [x])[..|p|] == p;
  }

  /** A `Step` keeps the keys in order of first appearance. */
  lemma StepKeys(d: Dict<string, Ingredient>, p: seq<Ingredient>, x: Ingredient)
    requires KeysDescribe(d, p)
    requires Step(d, x).Ok?
    ensures KeysDescribe(Step(d, x).value, p + [x])
  {
    NamesNext(p, x);
    DedupSpec(Names(p), 0);
    assert (Names(p) + [x.element.name])[..|Names(p)|] == Names(p);
  }

  /** A `Step` keeps every entry equal to the first occurrence's element and
      unit with the running total as its value. */
  lemma StepEntry(d: Dict<string, Ingredient>, p: seq<Ingredient>, x: Ingredient, k: string)
    requires k in d.items <==> k in Names(p)
    requires x.element.name in d.items <==> x.element.name in Names(p)
    requires k in d.items ==> EntryAgrees(d.items[k], p, k)
    requires Step(d, x).Ok? && k in Step(d, x).value.items
    ensures k in Names(p + [x])
    ensures EntryAgrees(Step(d, x).value.items[k], p + [x], k)
  {
    NamesNext(p, x);
    if k !in Names(p) {
      StepEntryNew(d, p, x);
    } else if k == x.element.name {
      StepEntrySame(d, p, x);
    } else {
      StepEntryOther(d, p, x, k);
    }
  }

  /** Entry `e` agrees with the first ingredient named `k` in `items` and
      holds the total of that name in its unit. */
  ghost predicate EntryAgrees(e: Ingredient, items: seq<Ingredient>, k: string)
    requires k in Names(items)
    reads set x | x in items :: x.amount.unit.measure
  {
    var first := items[FirstIndex(items, k)];
    && e.element == first.element
    && e.amount.unit == first.amount.unit
    && e.amount.value == Total(items, k, first.amount.unit)
  }

  lemma StepEntryNew(d: Dict<string, Ingredient>, p: seq<Ingredient>, x: Ingredient)
    requires x.element.name !in d.items && x.element.name !in Names(p)
    requires Step(d, x).Ok?
    ensures x.element.name in Names(p + [x]) && x.element.name in Step(d, x).value.items
    ensures EntryAgrees(Step(d, x).value.items[x.element.name], p + [x], x.element.name)
  {
    var n := x.element.name;
    NamesNext(p, x);
    assert FirstIndex(p + [x], n) == |p|;
    TotalNext(p, x, n, x.amount.unit);
    TotalAbsent(p, n, x.amount.unit);
    assert Step(d, x).value.items[n] == x;
  }

  lemma StepEntrySame(d: Dict<string, Ingredient>, p: seq<Ingredient>, x: Ingredient)
    requires x.element.name in d.items && x.element.name in Names(p)
    requires EntryAgrees(d.items[x.element.name], p, x.element.name)
    requires Step(d, x).Ok?
    ensures x.element.name in Names(p + [x]) && x.element.name in Step(d, x).value.items
    ensures EntryAgrees(Step(d, x).value.items[x.element.name], p + [x], x.element.name)
  {
    var n := x.element.name;
    NamesNext(p, x);
    FirstIndexExtend(p, x, n);
    var first := p[FirstIndex(p, n)];
    assert (p + [x])[FirstIndex(p + [x], n)] == first;
    var u := first.amount.unit;
    TotalNext(p, x, n, u);
    var sum := Add(d.items[n], OfIngredient(x));
    assert Step(d, x).value.items[n] == sum.value;
    assert sum.value.amount.value == d.items[n].amount.value + ValueIn(x, u);
  }

  lemma StepEntryOther(d: Dict<string, Ingredient>, p: seq<Ingredient>, x: Ingredient, k: string)
    requires k != x.element.name && k in d.items && k in Names(p)
    requires EntryAgrees(d.items[k], p, k)
    requires Step(d, x).Ok?
    ensures k in Names(p + [x]) && k in Step(d, x).value.items
    ensures EntryAgrees(Step(d, x).value.items[k], p + [x], k)
  {
    var n := x.element.name;
    NamesNext(p, x);
    FirstIndexExtend(p, x, k);
    var first := p[FirstIndex(p, k)];
    assert (p + [x])[FirstIndex(p + [x], k)] == first;
    TotalNext(p, x, k, first.amount.unit);
    var r := Step(d, x).value;
    assert r.items == d.items[n := r.items[n]];
  }

  lemma TotalNext(p: seq<Ingredient>, x: Ingredient, k: string, u: Unit)
    ensures Total(p + [x], k, u) == Total(p, k, u) + (if x.element.name == k then ValueIn(x, u) else 0.0)
  {
    assert (p + [x])[..|p|] == p;
  }

  /** The unit of the first ingredient named `k`. */
  ghost function FirstUnit(items: seq<Ingredient>, k: string): Unit
    requires k in Names(items)
  {
    items[FirstIndex(items, k)].amount.unit
  }

  /** The fold fails only on a `+=` whose conversion fails: the list is built
      exactly when every ingredient converts into the unit of its name's
      first ingredient. */
  ghost predicate Combinable(items: seq<Ingredient>)
    reads set x | x in items :: x.amount.unit.measure
  {
    forall j :: 0 <= j < |items| ==> items[j].To(UnitValue(FirstUnit(items, items[j].element.name))).Ok?
  }

  lemma {:induction false} AggregateOk(items: seq<Ingredient>)
    ensures Aggregate(items).Ok? <==> Combinable(items)
  {
    if items != [] {
      var p, x := items[..|items| - 1], items[|items| - 1];
      assert items == p + [x];
      AggregateOk(p);
      AggregateNext(p, x);
      CombinableNext(p, x);
      if Aggregate(p).Ok? {
        AggregateSpec(p);
        StepOk(Aggregate(p).value, p, x);
      }
    }
  }

  lemma CombinableNext(p: seq<Ingredient>, x: Ingredient)
    ensures x.element.name in Names(p + [x])
    ensures Combinable(p + [x]) <==>
      Combinable(p) && x.To(UnitValue(FirstUnit(p + [x], x.element.name))).Ok?
  {
    NamesNext(p, x);
    if Combinable(p + [x]) {
      CombinableShrink(p, x);
    }
    if Combinable(p) && x.To(UnitValue(FirstUnit(p + [x], x.element.name))).Ok? {
      CombinableGrow(p, x);
    }
  }

  /** Appending keeps the first unit of every name already present. */
  lemma FirstUnitsKept(p: seq<Ingredient>, x: Ingredient)
    ensures forall k :: k in Names(p) ==> k in Names(p + [x]) && FirstUnit(p + [x], k) == FirstUnit(p, k)
  {
    forall k | k in Names(p)
      ensures k in Names(p + [x]) && FirstUnit(p + [x], k) == FirstUnit(p, k)
    {
      FirstIndexExtend(p, x, k);
    }
  }

  lemma CombinableShrink(p: seq<Ingredient>, x: Ingredient)
    requires Combinable(p + [x])
    ensures x.element.name in Names(p + [x])
    ensures Combinable(p) && x.To(UnitValue(FirstUnit(p + [x], x.element.name))).Ok?
  {
    var items := p + [x];
    NamesNext(p, x);
    FirstUnitsKept(p, x);
    forall j | 0 <= j < |p|
      ensures p[j].To(UnitValue(FirstUnit(p, p[j].element.name))).Ok?
    {
      assert items[j] == p[j];
      assert Names(p)[j] == p[j].element.name;
    }
    assert items[|p|] == x;
  }

  lemma CombinableGrow(p: seq<Ingredient>, x: Ingredient)
    requires x.element.name in Names(p + [x])
    requires Combinable(p) && x.To(UnitValue(FirstUnit(p + [x], x.element.name))).Ok?
    ensures Combinable(p + [x])
  {
    var items := p + [x];
    NamesNext(p, x);
    FirstUnitsKept(p, x);
    forall j | 0 <= j < |items|
      ensures items[j].To(UnitValue(FirstUnit(items, items[j].element.name))).Ok?
    {
      if j < |p| {
        assert items[j] == p[j];
        assert Names(p)[j] == p[j].element.name;
      }
    }
  }

  /** A `Step` fails exactly when the new ingredient does not convert into
      the unit of its name's first ingredient. */
  lemma StepOk(d: Dict<string, Ingredient>, p: seq<Ingredient>, x: Ingredient)
    requires x.element.name in d.items <==> x.element.name in Names(p)
    requires x.element.name in d.items ==>
      && d.items[x.element.name].element.name == x.element.name
      && d.items[x.element.name].amount.unit == FirstUnit(p, x.element.name)
    ensures x.element.name in Names(p + [x])
    ensures Step(d, x).Ok? <==> x.To(UnitValue(FirstUnit(p + [x], x.element.name))).Ok?
  {
    var n := x.element.name;
    NamesNext(p, x);
    if n in Names(p) {
      FirstIndexExtend(p, x, n);
      assert (p + [x])[FirstIndex(p, n)] == p[FirstIndex(p, n)];
      assert FirstUnit(p + [x], n) == FirstUnit(p, n);
      var sum := Add(d.items[n], OfIngredient(x));
      assert Step(d, x).Ok? <==> sum.Ok?;
    } else {
      assert FirstIndex(p + [x], n) == |p|;
    }
  }

  /** An element that occurs once is stored as that very ingredient. */
  lemma SingleOccurrence(items: seq<Ingredient>, j: nat)
    requires j < |items|
    requires forall i :: 0 <= i < |items| && i != j ==> items[i].element.name != items[j].element.name
    ensures Aggregate(items).Ok? ==>
      items[j].element.name in Aggregate(items).value.items &&
      Aggregate(items).value.items[items[j].element.name] == items[j]
  {
    var k := items[j].element.name;
    AggregateSpec(items);
    assert Names(items)[j] == k;
    TotalSingle(items, j, items[j].amount.unit);
    assert FirstIndex(items, k) == j;
  }

  lemma {:induction false} TotalSingle(items: seq<Ingredient>, j: nat, u: Unit)
    requires j < |items|
    requires forall i :: 0 <= i < |items| && i != j ==> items[i].element.name != items[j].element.name
    ensures Total(items, items[j].element.name, u) == ValueIn(items[j], u)
  {
    var k := items[j].element.name;
    var p := items[..|items| - 1];
    if j == |items| - 1 {
      forall i | 0 <= i < |p|
        ensures Names(p)[i] != k
      {
        assert items[i] == p[i];
      }
      TotalAbsent(p, k, u);
    } else {
      assert p[j] == items[j];
      forall i | 0 <= i < |p| && i != j
        ensures p[i].element.name != p[j].element.name
      {
        assert p[i] == items[i];
      }
      TotalSingle(p, j, u);
    }
  }

  // ---------------------------------------------------------------- present

  /** `t in s` for strings: `t` occurs in `s` as a contiguous part. */
  function Contains(s: string, t: string): bool
    decreases |s|
  {
    |t| <= |s| && (s[..|t|] == t || Contains(s[1..], t))
  }

  /** `t` occurs in `s` at index `j`. */
  ghost predicate OccursAt(s: string, t: string, j: int)
  {
    0 <= j && j + |t| <= |s| && s[j..j + |t|] == t
  }

  lemma {:induction false} ContainsSpec(s: string, t: string)
    ensures Contains(s, t) <==> exists j :: OccursAt(s, t, j)
    decreases |s|
  {
    if |t| <= |s| {
      assert s[0..|t|] == s[..|t|];
      if s[..|t|] != t && |s| > 0 {
        ContainsSpec(s[1..], t);
        if exists j :: OccursAt(s, t, j) {
          var j :| OccursAt(s, t, j);
          assert j != 0;
          assert s[1..][j - 1..j - 1 + |t|] == t;
          assert OccursAt(s[1..], t, j - 1);
        }
        if Contains(s[1..], t) {
          var j :| OccursAt(s[1..], t, j);
          assert s[j + 1..j + 1 + |t|] == t;
          assert OccursAt(s, t, j + 1);
        }
      } else if s[..|t|] == t {
        assert OccursAt(s, t, 0);
      }
    }
  }

  /** `[name for name in keys if 'liter' in name]` */
  function InvalidNames(keys: seq<string>): (names: seq<string>)
    ensures forall k :: k in names <==> k in keys && Contains(k, "liter")
  {
    if keys == [] then []
    else
      var names := InvalidNames(keys[..|keys| - 1]);
      var k := keys[|keys| - 1];
      assert keys == keys[..|keys| - 1] + [k];
      if Contains(k, "liter") then names + [k] else names
  }

  /** Python's `round(x, 3)` on exact reals: to the nearest multiple of
      0.001, halves to the even multiple. */
  function Round3(x: real): real
  {
    RoundHalfEven(x * 1000.0) as real / 1000.0
  }

  function RoundHalfEven(y: real): int
  {
    var f := y.Floor;
    var d := y - f as real;
    if d < 0.5 then f else if d > 0.5 then f + 1 else if f % 2 == 0 then f else f + 1
  }

  /** The rounded value is a multiple of 0.001 within half of 0.001 of the
      value, the even multiple when the value lies halfway between two;
      multiples of 0.001 are kept as they are. */
  lemma Round3Spec(x: real, k: int)
    ensures -0.0005 <= Round3(x) - x <= 0.0005
    ensures var n := RoundHalfEven(x * 1000.0);
      Round3(x) * 1000.0 == n as real && -0.5 <= n as real - x * 1000.0 <= 0.5
    ensures var n := RoundHalfEven(x * 1000.0);
      (n as real - x * 1000.0 == 0.5 || x * 1000.0 - n as real == 0.5) ==> n % 2 == 0
    ensures Round3(k as real / 1000.0) == k as real / 1000.0
  {
    assert (k as real / 1000.0) * 1000.0 == k as real;
  }

  /** `[unit for unit in us if unit.name not in invalid]`: the units kept,
      in their order and with their repetitions. */
  function OfferedUnits(us: seq<Unit>, invalid: seq<string>): (o: seq<Unit>)
    ensures |o| <= |us|
    ensures forall j :: 0 <= j < |o| ==> o[j] in us && o[j].name !in invalid
    ensures forall j :: 0 <= j < |us| && us[j].name !in invalid ==> us[j] in o
  {
    if us == [] then []
    else
      var init := us[..|us| - 1];
      var u := us[|us| - 1];
      assert us == init + [u];
      OfferedUnits(init, invalid) + if u.name in invalid then [] else [u]
  }

  /** The candidate units and their rounded values, in the registry's
      value order; the first failing conversion is the error. */
  function Candidates(i: Ingredient, us: seq<Unit>, invalid: seq<string>): (r: Result<seq<(Unit, real)>>)
    reads i.amount.unit.measure
    ensures r.Ok? <==> forall j :: 0 <= j < |us| && us[j].name !in invalid ==> i.To(UnitValue(us[j])).Ok?
    ensures r.Ok? ==> |r.value| == |OfferedUnits(us, invalid)|
    ensures r.Ok? ==> forall k :: 0 <= k < |r.value| ==>
      r.value[k] == (OfferedUnits(us, invalid)[k], Round3(ValueIn(i, OfferedUnits(us, invalid)[k])))
    ensures r.Ok? ==> forall c :: c in r.value ==>
      && c.0 in us && c.0.name !in invalid
      && i.To(UnitValue(c.0)).Ok? && c.1 == Round3(i.To(UnitValue(c.0)).value.amount.value)
    ensures r.Ok? ==> forall j :: 0 <= j < |us| && us[j].name !in invalid ==>
      (us[j], Round3(i.To(UnitValue(us[j])).value.amount.value)) in r.value
  {
    if us == [] then Ok([])
    else
      var init := us[..|us| - 1];
      var u := us[|us| - 1];
      assert us == init + [u];
      var found :- Candidates(i, init, invalid);
      if u.name in invalid then Ok(found)
      else
        var converted :- i.To(UnitValue(u));
        Ok(found + [(u, Round3(converted.amount.value))])
  }

  /** The index of the candidate `whole_list.pop()` returns after the
      stable descending sort and the `value >= 1` filter: the smallest value
      not below 1, the last one in the original order among equal values. */
  function PickIndex(vs: seq<real>): (r: Option<nat>)
    ensures r.None? <==> forall j :: 0 <= j < |vs| ==> vs[j] < 1.0
    ensures r.Some? ==> r.value < |vs| && vs[r.value] >= 1.0
    ensures r.Some? ==> forall j :: 0 <= j < |vs| && vs[j] >= 1.0 ==> vs[r.value] <= vs[j]
    ensures r.Some? ==> forall j :: r.value < j < |vs| && vs[j] >= 1.0 ==> vs[r.value] < vs[j]
  {
    if vs == [] then None
    else
      var p := PickIndex(vs[..|vs| - 1]);
      var v := vs[|vs| - 1];
      if v >= 1.0 && (p.None? || v <= vs[p.value]) then Some(|vs| - 1) else p
  }

  /** `whole_list.pop()` after the sort and the filter: the candidate with
      the smallest value not below 1, or an IndexError when there is none. */
  function Pick(cands: seq<(Unit, real)>): (r: Result<(Unit, real)>)
    ensures r.Ok? ==> r.value in cands && r.value.1 >= 1.0
    ensures r.Ok? ==> forall c :: c in cands && c.1 >= 1.0 ==> r.value.1 <= c.1
    ensures r.Ok? ==> exists j ::
      && 0 <= j < |cands| && cands[j] == r.value
      && forall k :: j < k < |cands| && cands[k].1 >= 1.0 ==> r.value.1 < cands[k].1
    ensures r.Err? <==> forall c :: c in cands ==> c.1 < 1.0
    ensures r.Err? ==> r.error == IndexError
  {
    var vs := seq(|cands|, j requires 0 <= j < |cands| => cands[j].1);
    var p := PickIndex(vs);
    if p.None? then
      assert forall c :: c in cands ==> c.1 < 1.0 by {
        forall c | c in cands ensures c.1 < 1.0 {
          var j :| 0 <= j < |cands| && cands[j] == c;
          assert vs[j] == c.1;
        }
      }
      Err(IndexError)
    else
      assert forall c :: c in cands && c.1 >= 1.0 ==> cands[p.value].1 <= c.1 by {
        forall c | c in cands && c.1 >= 1.0 ensures cands[p.value].1 <= c.1 {
          var j :| 0 <= j < |cands| && cands[j] == c;
          assert vs[j] == c.1;
        }
      }
      assert forall k :: p.value < k < |cands| && cands[k].1 >= 1.0 ==> cands[p.value].1 < cands[k].1 by {
        forall k | p.value < k < |cands| && cands[k].1 >= 1.0 ensures cands[p.value].1 < cands[k].1 {
          assert vs[k] == cands[k].1;
        }
      }
      Ok(cands[p.value])
  }

  /** The candidate `present` shows: the unit and its rounded value. */
  function Choose(i: Ingredient): (r: Result<(Unit, real)>)
    reads i.amount.unit.measure
    requires i.amount.unit.measure != null ==> i.amount.unit.measure.Valid()
    ensures i.amount.unit.measure == null ==> r == Err(AttributeError)
    ensures r.Ok? ==> r.value.1 >= 1.0
  {
    var m := i.amount.unit.measure;
    if m == null then Err(AttributeError)
    else
      var cands :- Candidates(i, Values(m.units), InvalidNames(m.units.keys));
      Pick(cands)
  }

  /** The units `present` considers: the registry's values whose names are
      not keys containing "liter". */
  ghost predicate Offered(m: Measure, u: Unit)
    reads m
    requires m.Valid()
  {
    u in Values(m.units) && u.name !in InvalidNames(m.units.keys)
  }

  /** The shown unit is offered, its value is the rounded conversion, and no
      offered unit has a smaller rounded value not below 1. */
  lemma ChooseOk(i: Ingredient)
    requires i.amount.unit.measure != null && i.amount.unit.measure.Valid()
    requires Choose(i).Ok?
    ensures var m := i.amount.unit.measure;
      var (u, v) := Choose(i).value;
      && Offered(m, u)
      && i.To(UnitValue(u)).Ok?
      && v == Round3(ValueIn(i, u))
      && (forall w :: Offered(m, w) ==> i.To(UnitValue(w)).Ok?)
      && forall w :: Offered(m, w) && Round3(ValueIn(i, w)) >= 1.0 ==> v <= Round3(ValueIn(i, w))
  {
    var m := i.amount.unit.measure;
    var us, invalid := Values(m.units), InvalidNames(m.units.keys);
    var c := Candidates(i, us, invalid).value;
    forall w | Offered(m, w)
      ensures i.To(UnitValue(w)).Ok? && (w, Round3(ValueIn(i, w))) in c
    {
      var j :| 0 <= j < |us| && us[j] == w;
    }
  }

  /** Position `j` of the offered units `o` holds `u`, and every offered
      unit after it whose rounded value is not below 1 has a rounded value
      larger than `v`. */
  ghost predicate LastAtOrBelow(i: Ingredient, o: seq<Unit>, j: int, u: Unit, v: real)
    reads i.amount.unit.measure
  {
    && 0 <= j < |o| && o[j] == u
    && forall k :: j < k < |o| && Round3(ValueIn(i, o[k])) >= 1.0 ==> v < Round3(ValueIn(i, o[k]))
  }

  /** Among offered units with equal rounded values, the shown one is the
      last in the registry's order. */
  lemma ChooseLast(i: Ingredient)
    requires i.amount.unit.measure != null && i.amount.unit.measure.Valid()
    requires Choose(i).Ok?
    ensures var m := i.amount.unit.measure;
      exists j :: LastAtOrBelow(i, OfferedUnits(Values(m.units), InvalidNames(m.units.keys)), j, Choose(i).value.0, Choose(i).value.1)
  {
    var m := i.amount.unit.measure;
    var us, invalid := Values(m.units), InvalidNames(m.units.keys);
    assert Candidates(i, us, invalid).Ok? && Pick(Candidates(i, us, invalid).value) == Choose(i);
    var j := CandidatesLast(i, us, invalid, Choose(i).value);
  }

  /** The position in the offered units of the candidate `Pick` chooses. */
  lemma CandidatesLast(i: Ingredient, us: seq<Unit>, invalid: seq<string>, p: (Unit, real)) returns (j: nat)
    requires Candidates(i, us, invalid).Ok? && Pick(Candidates(i, us, invalid).value) == Ok(p)
    ensures LastAtOrBelow(i, OfferedUnits(us, invalid), j, p.0, p.1)
  {
    j := PickPosition(Candidates(i, us, invalid).value, p);
  }

  /** The position of the candidate `Pick` chooses: every later candidate
      not below 1 is larger. */
  lemma PickPosition(cands: seq<(Unit, real)>, p: (Unit, real)) returns (j: nat)
    requires Pick(cands) == Ok(p)
    ensures j < |cands| && cands[j] == p
    ensures forall k :: j < k < |cands| && cands[k].1 >= 1.0 ==> p.1 < cands[k].1
  {
    j :| && 0 <= j < |cands| && cands[j] == p
         && forall k :: j < k < |cands| && cands[k].1 >= 1.0 ==> p.1 < cands[k].1;
  }

  /** When every offered unit converts, there is an IndexError exactly when
      every rounded value is below 1; a unit that does not convert is an
      error. */
  lemma ChooseErr(i: Ingredient)
    requires i.amount.unit.measure != null && i.amount.unit.measure.Valid()
    ensures var m := i.amount.unit.measure;
      (forall w :: Offered(m, w) ==> i.To(UnitValue(w)).Ok?) ==>
        (Choose(i).Err? <==> forall w :: Offered(m, w) ==> Round3(ValueIn(i, w)) < 1.0)
    ensures var m := i.amount.unit.measure;
      (forall w :: Offered(m, w) ==> i.To(UnitValue(w)).Ok?) ==>
        (Choose(i).Err? ==> Choose(i).error == IndexError)
    ensures var m := i.amount.unit.measure;
      (exists w :: Offered(m, w) && i.To(UnitValue(w)).Err?) ==> Choose(i).Err?
  {
    var m := i.amount.unit.measure;
    var us, invalid := Values(m.units), InvalidNames(m.units.keys);
    var cands := Candidates(i, us, invalid);
    if cands.Ok? {
      var c := cands.value;
      forall w | Offered(m, w)
        ensures i.To(UnitValue(w)).Ok? && (w, Round3(ValueIn(i, w))) in c
      {
        var j :| 0 <= j < |us| && us[j] == w;
      }
    } else if exists w :: Offered(m, w) && i.To(UnitValue(w)).Err? {
    } else {
      var j :| 0 <= j < |us| && us[j].name !in invalid && !i.To(UnitValue(us[j])).Ok?;
      assert Offered(m, us[j]);
    }
  }

  // ------------------------------------------------------- eighths of a unit

  /** `[i/8 for i in range(8)]` */
  function Cutoffs(): seq<real>
  {
    seq(8, k requires 0 <= k < 8 => k as real / 8.0)
  }

  /** `bisect.bisect_right(a, x)` on a sorted list: how many elements are
      not above `x`. */
  function BisectRight(a: seq<real>, x: real): (n: nat)
    ensures n <= |a|
    ensures (forall j, k :: 0 <= j < k < |a| ==> a[j] <= a[k]) ==>
      (forall j :: 0 <= j < n ==> a[j] <= x) && (forall j :: n <= j < |a| ==> x < a[j])
  {
    if a == [] || x < a[0] then 0 else 1 + BisectRight(a[1..], x)
  }

  /** Over the eighths, `bisect_right` counts the eighths not above `r`. */
  lemma BisectCutoffs(r: real)
    requires 0.0 <= r
    ensures var n := BisectRight(Cutoffs(), r);
      && 1 <= n <= 8
      && (n - 1) as real / 8.0 <= r
      && (n < 8 ==> r < n as real / 8.0)
  {
    var a := Cutoffs();
    assert forall j, k :: 0 <= j < k < |a| ==> a[j] <= a[k];
    assert a[0] == 0.0;
    var n := BisectRight(a, r);
    assert a[n - 1] == (n - 1) as real / 8.0;
    if n < 8 {
      assert a[n] == n as real / 8.0;
    }
  }

  /** The eighths the source shows for remainder `r`, as written:
      `cutoffs[bisect(cutoffs, r)]` is the next eighth above `r`, and past
      the last cutoff the index is out of range. */
  function EighthAsWritten(r: real): (k: Result<nat>)
    requires 0.0 <= r
  {
    var n := BisectRight(Cutoffs(), r);
    if n >= |Cutoffs()| then Err(IndexError) else Ok(n)
  }

  /** The eighths rounded down, `cutoffs[bisect(cutoffs, r) - 1]`. */
  function FloorEighth(r: real): (k: nat)
    requires 0.0 <= r
  {
    var n := BisectRight(Cutoffs(), r);
    if n == 0 then 0 else n - 1
  }

  /** As written, the shown eighth is the smallest eighth strictly above the
      remainder: never zero, and out of range from 7/8 on. */
  lemma EighthAsWrittenSpec(r: real)
    requires 0.0 <= r < 1.0
    ensures r < 7.0 / 8.0 <==> EighthAsWritten(r).Ok?
    ensures EighthAsWritten(r).Err? ==> EighthAsWritten(r).error == IndexError
    ensures EighthAsWritten(r).Ok? ==>
      var k := EighthAsWritten(r).value;
      1 <= k <= 7 && (k - 1) as real / 8.0 <= r < k as real / 8.0
  {
    BisectCutoffs(r);
  }

  /** Rounded down, the eighth is the largest eighth not above the
      remainder; a zero remainder gives zero eighths. */
  lemma FloorEighthSpec(r: real)
    requires 0.0 <= r < 1.0
    ensures var k := FloorEighth(r);
      k <= 7 && k as real / 8.0 <= r < (k + 1) as real / 8.0
    ensures FloorEighth(r) == 0 <==> r < 1.0 / 8.0
  {
    BisectCutoffs(r);
  }

  // -------------------------------------------------------------- rendering

  /** What `present` shows: a whole number, a number of eighths and a unit. */
  datatype Shown = Shown(whole: nat, eighths: nat, unit: Unit)

  /** `Fraction(n, d)` for a power-of-two denominator: both terms halved
      while both are even. */
  function Reduce(n: nat, d: nat): (nat, nat)
    decreases d
  {
    if d > 1 && n % 2 == 0 && d % 2 == 0 then Reduce(n / 2, d / 2) else (n, d)
  }

  /** `Fraction(k/8)`: numerator and denominator in lowest terms. */
  function LowestEighths(k: nat): (nat, nat)
  {
    Reduce(k, 8)
  }

  /** The fraction keeps its value and is in lowest terms: its denominator
      divides 8 and its numerator is odd. */
  lemma LowestEighthsSpec(k: nat)
    requires 1 <= k <= 7
    ensures var (n, d) := LowestEighths(k);
      && 1 <= n < d && 8 % d == 0 && n % 2 == 1
      && n as real / d as real == k as real / 8.0
  {
    if k == 1 { assert LowestEighths(k) == (1, 8); }
    else if k == 2 { assert LowestEighths(k) == (1, 4); }
    else if k == 3 { assert LowestEighths(k) == (3, 8); }
    else if k == 4 { assert LowestEighths(k) == (1, 2); }
    else if k == 5 { assert LowestEighths(k) == (5, 8); }
    else if k == 6 { assert LowestEighths(k) == (3, 4); }
    else { assert LowestEighths(k) == (7, 8); }
  }

  function Digit(d: nat): char
    requires d < 10
  {
    "0123456789"[d]
  }

  lemma DigitValue(d: nat)
    requires d < 10
    ensures Digit(d) as int - '0' as int == d
  {
  }

  /** `str(n)` for a natural number. */
  function NatToString(n: nat): (s: string)
    ensures |s| >= 1
    ensures forall j :: 0 <= j < |s| ==> '0' <= s[j] <= '9'
  {
    if n < 10 then [Digit(n)] else NatToString(n / 10) + [Digit(n % 10)]
  }

  /** Decimal digits read back as a number. */
  function ParseNat(s: string): nat
    requires forall j :: 0 <= j < |s| ==> '0' <= s[j] <= '9'
  {
    if s == [] then 0
    else 10 * ParseNat(s[..|s| - 1]) + (s[|s| - 1] as int - '0' as int)
  }

  lemma {:induction false} NatToStringRoundTrip(n: nat)
    ensures ParseNat(NatToString(n)) == n
    decreases n
  {
    var s := NatToString(n);
    DigitValue(n % 10);
    if n >= 10 {
      NatToStringRoundTrip(n / 10);
      assert s[..|s| - 1] == NatToString(n / 10);
      assert s[|s| - 1] == Digit(n % 10);
      assert n == 10 * (n / 10) + n % 10;
    }
  }

  /** The f-string of `present`: `"<whole> <n>/<d> <unit>s"`, or
      `"<whole> <unit>s"` when there are no eighths. */
  function Render(shown: Shown): string
  {
    if 1 <= shown.eighths <= 7 then
      var (n, d) := LowestEighths(shown.eighths);
      NatToString(shown.whole) + " " + NatToString(n) + "/" + NatToString(d) + " " + shown.unit.name + "s"
    else
      NatToString(shown.whole) + " " + shown.unit.name + "s"
  }

  /** A fraction appears in the text exactly when there are eighths to show
      (for a unit name without a slash). */
  lemma RenderFraction(shown: Shown)
    requires shown.eighths <= 7
    requires '/' !in shown.unit.name
    ensures '/' in Render(shown) <==> shown.eighths > 0
  {
    var w := NatToString(shown.whole);
    assert '/' !in w by {
      forall j | 0 <= j < |w| ensures w[j] != '/' { }
    }
    if shown.eighths > 0 {
      var (n, d) := LowestEighths(shown.eighths);
      var text := w + " " + NatToString(n) + "/" + NatToString(d) + " " + shown.unit.name + "s";
      assert text[|w| + 1 + |NatToString(n)|] == '/';
    } else {
      var text := w + " " + shown.unit.name + "s";
      forall j | 0 <= j < |text| ensures text[j] != '/' {
        if j >= |w| + 1 && j < |w| + 1 + |shown.unit.name| {
          assert text[j] == shown.unit.name[j - |w| - 1];
        }
      }
    }
  }

  /** `present()` as written: the whole part, then the next eighth above the
      remainder. */
  function ShowAsWritten(i: Ingredient): (r: Result<Shown>)
    reads i.amount.unit.measure
    requires i.amount.unit.measure != null ==> i.amount.unit.measure.Valid()
    ensures r.Ok? ==> Choose(i).Ok? && r.value.unit == Choose(i).value.0
    ensures r.Ok? ==> 1 <= r.value.eighths <= 7
    ensures r.Ok? ==> var v := Choose(i).value.1;
      r.value.whole as real + (r.value.eighths - 1) as real / 8.0 <= v < r.value.whole as real + r.value.eighths as real / 8.0
    ensures Choose(i).Err? ==> r == Err(Choose(i).error)
    ensures Choose(i).Ok? ==> var v := Choose(i).value.1;
      && (r.Err? <==> v - v.Floor as real >= 7.0 / 8.0)
      && (r.Err? ==> r.error == IndexError)
  {
    var (u, v) :- Choose(i);
    var whole := v.Floor;
    var remainder := v - whole as real;
    EighthAsWrittenSpec(remainder);
    var k :- EighthAsWritten(remainder);
    Ok(Shown(whole, k, u))
  }

  /** `present()` with the remainder rounded down to an eighth. */
  function Show(i: Ingredient): (r: Result<Shown>)
    reads i.amount.unit.measure
    requires i.amount.unit.measure != null ==> i.amount.unit.measure.Valid()
    ensures r.Ok? <==> Choose(i).Ok?
    ensures r.Err? ==> r.error == Choose(i).error
    ensures r.Ok? ==> r.value.unit == Choose(i).value.0 && r.value.eighths <= 7 && r.value.whole >= 1
    ensures r.Ok? ==> var v := Choose(i).value.1;
      r.value.whole as real + r.value.eighths as real / 8.0 <= v < r.value.whole as real + (r.value.eighths + 1) as real / 8.0
  {
    var (u, v) :- Choose(i);
    var whole := v.Floor;
    var remainder := v - whole as real;
    FloorEighthSpec(remainder);
    Ok(Shown(whole, FloorEighth(remainder), u))
  }

  /** `ingredient.present()` as written. */
  function PresentAsWritten(i: Ingredient): Result<string>
    reads i.amount.unit.measure
    requires i.amount.unit.measure != null ==> i.amount.unit.measure.Valid()
  {
    var shown :- ShowAsWritten(i);
    Ok(Render(shown))
  }

  /** `ingredient.present()` with the remainder rounded down. */
  function Present(i: Ingredient): Result<string>
    reads i.amount.unit.measure
    requires i.amount.unit.measure != null ==> i.amount.unit.measure.Valid()
  {
    var shown :- Show(i);
    Ok(Render(shown))
  }

  /** As written, every amount is shown with a fraction: the branch without
      one cannot be taken. */
  lemma PresentAsWrittenAlwaysFraction(i: Ingredient)
    requires i.amount.unit.measure != null ==> i.amount.unit.measure.Valid()
    requires ShowAsWritten(i).Ok? && '/' !in ShowAsWritten(i).value.unit.name
    ensures PresentAsWritten(i).Ok? && '/' in PresentAsWritten(i).value
  {
    RenderFraction(ShowAsWritten(i).value);
  }

  /** A value fixes its whole part and its eighths. */
  lemma PinEighths(w: nat, e: nat, v: real, w': nat, e': nat)
    requires e <= 7 && w as real + e as real / 8.0 <= v < w as real + (e + 1) as real / 8.0
    requires e' <= 7 && w' as real + e' as real / 8.0 <= v < w' as real + (e' + 1) as real / 8.0
    ensures w == w' && e == e'
  {
    var n, n' := 8 * w + e, 8 * w' + e';
    assert n as real <= 8.0 * v < (n + 1) as real;
    assert n' as real <= 8.0 * v < (n' + 1) as real;
    assert n == n';
  }

  lemma Numerals()
    ensures NatToString(1) == "1" && NatToString(2) == "2" && NatToString(7) == "7" && NatToString(8) == "8"
  {
    assert Digit(1) == '1';
  }

  lemma RenderExamples(u: Unit)
    ensures Render(Shown(2, 1, u)) == "2" + " " + "1" + "/" + "8" + " " + u.name + "s"
    ensures Render(Shown(2, 0, u)) == "2" + " " + u.name + "s"
    ensures Render(Shown(1, 7, u)) == "1" + " " + "7" + "/" + "8" + " " + u.name + "s"
  {
    Numerals();
    assert LowestEighths(1) == (1, 8);
    assert LowestEighths(7) == (7, 8);
  }

  lemma RenderText(u: Unit)
    ensures Render(Shown(2, 1, u)) == "2 1/8 " + u.name + "s"
    ensures Render(Shown(2, 0, u)) == "2 " + u.name + "s"
    ensures Render(Shown(1, 7, u)) == "1 7/8 " + u.name + "s"
  {
    RenderExamples(u);
    assert "2" + " " + "1" + "/" + "8" + " " == "2 1/8 ";
    assert "2" + " " == "2 ";
    assert "1" + " " + "7" + "/" + "8" + " " == "1 7/8 ";
  }

  lemma Floors()
    ensures 2.0.Floor == 2 && 1.9.Floor == 1
  {
  }

  /** Two whole units show as "2 1/8" as written, and as "2" rounded down. */
  lemma WholeAmountExample(i: Ingredient)
    requires i.amount.unit.measure != null ==> i.amount.unit.measure.Valid()
    requires Choose(i).Ok? && Choose(i).value.1 == 2.0
    ensures var name := Choose(i).value.0.name;
      && PresentAsWritten(i) == Ok("2 1/8 " + name + "s")
      && Present(i) == Ok("2 " + name + "s")
  {
    var u := Choose(i).value.0;
    RenderText(u);
    WholeAmountShown(i);
  }

  lemma WholeAmountShown(i: Ingredient)
    requires i.amount.unit.measure != null ==> i.amount.unit.measure.Valid()
    requires Choose(i).Ok? && Choose(i).value.1 == 2.0
    ensures ShowAsWritten(i) == Ok(Shown(2, 1, Choose(i).value.0))
    ensures Show(i) == Ok(Shown(2, 0, Choose(i).value.0))
  {
    var u := Choose(i).value.0;
    var asWritten, rounded := ShowAsWritten(i), Show(i);
    Floors();
    assert asWritten.Ok?;
    var w := asWritten.value;
    PinEighths(w.whole, w.eighths - 1, 2.0, 2, 0);
    assert w == Shown(2, 1, u);
    PinEighths(rounded.value.whole, rounded.value.eighths, 2.0, 2, 0);
  }

  /** A value 1.9 is an IndexError as written, and "1 7/8" rounded down. */
  lemma LastEighthExample(i: Ingredient)
    requires i.amount.unit.measure != null ==> i.amount.unit.measure.Valid()
    requires Choose(i).Ok? && Choose(i).value.1 == 1.9
    ensures PresentAsWritten(i) == Err(IndexError)
    ensures Present(i) == Ok("1 7/8 " + Choose(i).value.0.name + "s")
  {
    var rounded := Show(i);
    Floors();
    PinEighths(rounded.value.whole, rounded.value.eighths, 1.9, 1, 7);
    RenderText(Choose(i).value.0);
  }
}
