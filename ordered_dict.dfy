/** Python's `dict`: a finite map that remembers the order in which its keys
    were first inserted.  Assigning to an existing key keeps the key's place;
    a new key goes to the end. */
module OrderedDict {

  datatype Dict<K(==,!new), V> = Dict(keys: seq<K>, items: map<K, V>)

  /** The keys are listed once each, and exactly the keys of the map are listed. */
  ghost predicate WellFormed<K(!new), V>(d: Dict<K, V>) {
    && (forall i, j :: 0 <= i < j < |d.keys| ==> d.keys[i] != d.keys[j])
    && (forall k :: k in d.items <==> k in d.keys)
  }

  function Empty<K(==,!new), V>(): (d: Dict<K, V>)
    ensures WellFormed(d) && d.items == map[] && d.keys == []
  {
    Dict([], map[])
  }

  /** `d[k] = v` */
  function Put<K(==,!new), V>(d: Dict<K, V>, k: K, v: V): (r: Dict<K, V>)
    ensures WellFormed(d) ==> WellFormed(r)
    ensures r.items == d.items[k := v]
    ensures k in d.items ==> r.keys == d.keys
    ensures k !in d.items ==> r.keys == d.keys + [k]
  {
    if k in d.items then Dict(d.keys, d.items[k := v]) else Dict(d.keys + [k], d.items[k := v])
  }

  /** `for k in ks: d[k] = v` */
  function PutAll<K(==,!new), V>(d: Dict<K, V>, ks: seq<K>, v: V): (r: Dict<K, V>)
  {
    if ks == [] then d else Put(PutAll(d, ks[..|ks| - 1], v), ks[|ks| - 1], v)
  }

  lemma {:induction false} PutAllLookup<K(!new), V>(d: Dict<K, V>, ks: seq<K>, v: V)
    requires WellFormed(d)
    ensures var r := PutAll(d, ks, v);
      && WellFormed(r)
      && |d.keys| <= |r.keys| && r.keys[..|d.keys|] == d.keys
      && (forall k :: k in r.items <==> k in d.items || k in ks)
      && (forall k :: k in r.items ==> r.items[k] == if k in ks then v else d.items[k])
  {
    if ks != [] {
      var init, last := ks[..|ks| - 1], ks[|ks| - 1];
      PutAllLookup(d, init, v);
      assert ks == init + [last];
      var p := PutAll(d, init, v);
      assert PutAll(d, ks, v) == Put(p, last, v);
    }
  }

  /** The values in key order, one per key (as Python's `d.values()`). */
  function Values<K(==,!new), V>(d: Dict<K, V>): (vs: seq<V>)
    requires WellFormed(d)
    ensures |vs| == |d.keys|
    ensures forall i :: 0 <= i < |vs| ==> vs[i] == d.items[d.keys[i]]
  {
    seq(|d.keys|, i requires 0 <= i < |d.keys| => d.items[d.keys[i]])
  }

  /** `for k in ks: d[k] = e[k]` */
  function UpdateKeys<K(==,!new), V>(d: Dict<K, V>, e: Dict<K, V>, ks: seq<K>): (r: Dict<K, V>)
    requires forall i :: 0 <= i < |ks| ==> ks[i] in e.items
  {
    if ks == [] then d else Put(UpdateKeys(d, e, ks[..|ks| - 1]), ks[|ks| - 1], e.items[ks[|ks| - 1]])
  }

  /** `d.update(e)`, also what `dict(d, **e)` builds. */
  function Update<K(==,!new), V>(d: Dict<K, V>, e: Dict<K, V>): Dict<K, V>
    requires WellFormed(e)
  {
    UpdateKeys(d, e, e.keys)
  }

  lemma {:induction false} UpdateKeysLookup<K(!new), V>(d: Dict<K, V>, e: Dict<K, V>, ks: seq<K>)
    requires WellFormed(d)
    requires forall i :: 0 <= i < |ks| ==> ks[i] in e.items
    ensures var r := UpdateKeys(d, e, ks);
      && WellFormed(r)
      && |d.keys| <= |r.keys| && r.keys[..|d.keys|] == d.keys
      && (forall k :: k in r.items <==> k in d.items || k in ks)
      && (forall k :: k in r.items ==> r.items[k] == if k in ks then e.items[k] else d.items[k])
  {
    if ks != [] {
      var init, last := ks[..|ks| - 1], ks[|ks| - 1];
      UpdateKeysLookup(d, e, init);
      assert ks == init + [last];
      var p := UpdateKeys(d, e, init);
      assert UpdateKeys(d, e, ks) == Put(p, last, e.items[last]);
    }
  }

  /** After `d.update(e)` every key of `e` maps to its value in `e`, every
      other key keeps its value in `d`, and `d`'s keys keep their places. */
  lemma UpdateLookup<K(!new), V>(d: Dict<K, V>, e: Dict<K, V>)
    requires WellFormed(d) && WellFormed(e)
    ensures var r := Update(d, e);
      && WellFormed(r)
      && |d.keys| <= |r.keys| && r.keys[..|d.keys|] == d.keys
      && (forall k :: k in r.items <==> k in d.items || k in e.items)
      && (forall k :: k in r.items ==> r.items[k] == if k in e.items then e.items[k] else d.items[k])
  {
    UpdateKeysLookup(d, e, e.keys);
  }

  /** Copying values a dictionary already holds changes nothing. */
  lemma {:induction false} UpdateKeysUnchanged<K(!new), V>(d: Dict<K, V>, e: Dict<K, V>, ks: seq<K>)
    requires forall i :: 0 <= i < |ks| ==> ks[i] in e.items && ks[i] in d.items && d.items[ks[i]] == e.items[ks[i]]
    ensures UpdateKeys(d, e, ks) == d
  {
    if ks != [] {
      var init, last := ks[..|ks| - 1], ks[|ks| - 1];
      UpdateKeysUnchanged(d, e, init);
      assert d.items[last := e.items[last]] == d.items;
    }
  }

  /** Updating only appends keys: the keys already present keep their places. */
  lemma {:induction false} UpdateKeysPrefix<K(!new), V>(d: Dict<K, V>, e: Dict<K, V>, ks: seq<K>)
    requires forall i :: 0 <= i < |ks| ==> ks[i] in e.items
    ensures |d.keys| <= |UpdateKeys(d, e, ks).keys|
    ensures UpdateKeys(d, e, ks).keys[..|d.keys|] == d.keys
  {
    if ks != [] {
      var init, last := ks[..|ks| - 1], ks[|ks| - 1];
      UpdateKeysPrefix(d, e, init);
      var p := UpdateKeys(d, e, init);
      var r := UpdateKeys(d, e, ks);
      assert r == Put(p, last, e.items[last]);
      assert r.keys[..|d.keys|] == r.keys[..|p.keys|][..|d.keys|];
    }
  }
}
