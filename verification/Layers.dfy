/** The layered configuration (src/opentide/core/files.py): `deep_merge`, and `systems` as a second
    name of the same table as `platforms`. */
module Layers {
  import opened Options
  import opened Modifiers

  // ---------- deep_merge ----------

  function DeepMerge(source: Value, merge: Value): (r: Value)
    requires source.Table? && merge.Table?
    ensures r.Table?
    decreases merge, 1
  {
    Table(source.entries + map k | k in merge.entries :: Merged(source, merge, k))
  }

  function Merged(source: Value, merge: Value, k: string): Value
    requires source.Table? && merge.Table? && k in merge.entries
    decreases merge, 0
  {
    if k in source.entries && source.entries[k].Table? && merge.entries[k].Table?
    then DeepMerge(source.entries[k], merge.entries[k]) else merge.entries[k]
  }

  /** What is at `q` once the later layer is laid over the earlier. */
  function Laid(source: Value, merge: Value, q: Path): Found {
    match At(merge, q)
    case Missing => Read(source, q)
    case Beyond => Missing
    case found => found
  }

  /** The loop, over the keys in any order. */
  method DeepMergeInPlace(source: Value, merge: Value) returns (r: Value)
    requires source.Table? && merge.Table?
    ensures r == DeepMerge(source, merge)
    ensures forall q :: Read(r, q) == Laid(source, merge, q)
    decreases merge
  {
    var entries, rest := source.entries, merge.entries.Keys;
    while rest != {}
      invariant rest <= merge.entries.Keys
      invariant entries == source.entries + map k | k in merge.entries && k !in rest :: Merged(source, merge, k)
      decreases rest
    {
      var k :| k in rest;
      assert k in entries <==> k in source.entries;
      var value := merge.entries[k];
      if k in entries && entries[k].Table? && value.Table? {
        value := DeepMergeInPlace(entries[k], value);
      }
      entries, rest := entries[k := value], rest - {k};
    }
    assert entries == source.entries + map k | k in merge.entries :: Merged(source, merge, k);
    r := Table(entries);
    MergeMeans(source, merge);
  }

  /** The path law: what the later layer says about a path wins, a scalar over anything and a
      table over a scalar, and where it says nothing the earlier layer stays. */
  lemma {:induction false} MergeMeans(source: Value, merge: Value)
    requires source.Table? && merge.Table?
    ensures forall q :: Read(DeepMerge(source, merge), q) == Laid(source, merge, q)
    decreases merge
  {
    var r := DeepMerge(source, merge);
    forall k | k in merge.entries && k in source.entries && source.entries[k].Table? && merge.entries[k].Table?
      ensures forall q :: Read(Merged(source, merge, k), q) == Laid(source.entries[k], merge.entries[k], q)
    {
      MergeMeans(source.entries[k], merge.entries[k]);
    }
    forall q ensures Read(r, q) == Laid(source, merge, q) {
      if q != [] { MergeMeansAt(source, merge, q[0], q[1..]); }
    }
  }

  lemma MergeMeansAt(source: Value, merge: Value, k: string, rest: Path)
    requires source.Table? && merge.Table?
    requires k in merge.entries && k in source.entries && source.entries[k].Table? && merge.entries[k].Table?
             ==> Read(Merged(source, merge, k), rest) == Laid(source.entries[k], merge.entries[k], rest)
    ensures Read(DeepMerge(source, merge), [k] + rest) == Laid(source, merge, [k] + rest)
  {
    var r := DeepMerge(source, merge);
    AtKey(r, k, rest);
    AtKey(source, k, rest);
    AtKey(merge, k, rest);
    if k !in merge.entries {
      assert Child(r, k) == Child(source, k);
    } else {
      assert r.entries[k] == Merged(source, merge, k);
      if !(k in source.entries && source.entries[k].Table? && merge.entries[k].Table?) {
        NoTableBelow(source, merge, k, rest);
      }
    }
  }

  /** Where the two are not both tables, nothing of the source is left below the key. */
  lemma NoTableBelow(source: Value, merge: Value, k: string, rest: Path)
    requires source.Table? && merge.Table? && k in merge.entries
    requires !(k in source.entries && source.entries[k].Table? && merge.entries[k].Table?)
    ensures Read(merge.entries[k], rest) == Laid(source, merge, [k] + rest)
  {
    AtKey(source, k, rest);
    AtKey(merge, k, rest);
    if At(merge.entries[k], rest).Missing? {
      assert merge.entries[k].Table? && rest != [];
    }
  }

  // ---------- Several layers ----------

  function Folded(first: Value, layers: seq<Value>): (r: Value)
    requires first.Table? && forall i :: 0 <= i < |layers| ==> layers[i].Table?
    ensures r.Table?
  {
    if layers == [] then first else DeepMerge(Folded(first, layers[..|layers| - 1]), layers[|layers| - 1])
  }

  /** What the last layer that says something about a path says. */
  function LastWord(first: Value, layers: seq<Value>, q: Path): Found {
    if layers == [] then Read(first, q)
    else if At(layers[|layers| - 1], q) == Missing then LastWord(first, layers[..|layers| - 1], q)
    else Read(layers[|layers| - 1], q)
  }

  /** Folding the layers is the pointwise rule. */
  lemma {:induction false} FoldedIsLastWord(first: Value, layers: seq<Value>, q: Path)
    requires first.Table? && forall i :: 0 <= i < |layers| ==> layers[i].Table?
    ensures Read(Folded(first, layers), q) == LastWord(first, layers, q)
    decreases |layers|
  {
    if layers != [] {
      var front := layers[..|layers| - 1];
      FoldedIsLastWord(first, front, q);
      MergeMeans(Folded(first, front), layers[|layers| - 1]);
    }
  }

  // ---------- The second name ----------

  /** `unified`: `own` is the value of the key `systems` when it is a value of its own; with `None`
      it is the same object as the value of `platforms`. */
  datatype Unified = Unified(entries: map<string, Value>, own: Option<Value>)

  predicate IsSystems(k: string) { k == "systems" }

  predicate IsPlatforms(k: string) { k == "platforms" }

  const PLATFORMS := "platforms"

  ghost predicate Ok(u: Unified) {
    && PLATFORMS in u.entries && u.entries[PLATFORMS].Table?
    && forall k :: k in u.entries ==> !IsSystems(k)
  }

  /** `unified.get(key)`. */
  function Look(u: Unified, key: string): Option<Value> {
    if !IsSystems(key) then Get(u.entries, key)
    else if u.own.Some? then u.own
    else Get(u.entries, PLATFORMS)
  }

  /** One turn of `deep_merge` into `unified`: a table is changed in place, under both its names;
      any other value is put under the one key. */
  function MergeKey(u: Unified, key: string, value: Value): Unified {
    var now := Look(u, key);
    if now.Some? && now.value.Table? && value.Table? then
      var merged := DeepMerge(now.value, value);
      if !IsSystems(key) then u.(entries := u.entries[key := merged])
      else if u.own.Some? then u.(own := Some(merged))
      else u.(entries := u.entries[PLATFORMS := merged])
    else if IsSystems(key) then u.(own := Some(value))
    else if IsPlatforms(key) && u.own.None? then Unified(u.entries[key := value], Get(u.entries, key))
    else u.(entries := u.entries[key := value])
  }

  /** The two keys are names of one value. */
  predicate OneValue(u: Unified, a: string, b: string) {
    a == b || (u.own.None? && a in {"systems", "platforms"} && b in {"systems", "platforms"})
  }

  /** What one key's turn does under every name: a table merged into a table is seen under each name
      of it, any other value under its own key alone, and nothing else changes. */
  lemma KeyMeans(u: Unified, key: string, value: Value, other: string)
    requires PLATFORMS in u.entries && "systems" !in u.entries
    ensures var now, v := Look(u, key), MergeKey(u, key, value);
      var inPlace := now.Some? && now.value.Table? && value.Table?;
      Look(v, other)
      == if inPlace then (if OneValue(u, key, other) then Some(DeepMerge(now.value, value)) else Look(u, other))
         else if other == key then Some(value)
         else Look(u, other)
  {
    hide DeepMerge;
  }

  /** A layer's keys, each once. */
  ghost predicate Lists(order: seq<string>, layer: map<string, Value>) {
    && (forall k :: k in order <==> k in layer)
    && (forall i, j :: 0 <= i < j < |order| ==> order[i] != order[j])
  }

  function MergeKeys(u: Unified, layer: map<string, Value>, order: seq<string>): Unified
    requires forall k :: k in order ==> k in layer
  {
    if order == [] then u else
      var key := order[|order| - 1];
      MergeKey(MergeKeys(u, layer, order[..|order| - 1]), key, layer[key])
  }

  /** `systems` stays the same object as `platforms` exactly as long as no layer sets either to
      something that is not a table. Setting `systems` to a table changes both. */
  lemma {:induction false} StaysTheSameIff(u: Unified, layer: map<string, Value>, order: seq<string>)
    requires Ok(u) && u.own.None? && forall k :: k in order ==> k in layer
    ensures MergeKeys(u, layer, order).own.None?
            <==> forall k :: k in order && (IsSystems(k) || IsPlatforms(k)) ==> layer[k].Table?
    ensures MergeKeys(u, layer, order).own.None? ==> Ok(MergeKeys(u, layer, order))
    decreases |order|
  {
    if order != [] {
      var front, key := order[..|order| - 1], order[|order| - 1];
      assert order == front + [key];
      StaysTheSameIff(u, layer, front);
      var before := MergeKeys(u, layer, front);
      KeyKeeps(before, key, layer[key]);
    }
  }

  lemma KeyKeeps(u: Unified, key: string, value: Value)
    requires u.own.None? ==> Ok(u)
    ensures MergeKey(u, key, value).own.None?
            <==> u.own.None? && ((IsSystems(key) || IsPlatforms(key)) ==> value.Table?)
    ensures MergeKey(u, key, value).own.None? ==> Ok(MergeKey(u, key, value))
  {
    hide DeepMerge;
  }

  /** The layers come from folders of TOML files, so that each key holds a table. */
  ghost predicate FromFiles(layer: map<string, Value>) {
    forall k :: k in layer ==> layer[k].Table?
  }

  ghost predicate NoSystems(layer: map<string, Value>) {
    forall k :: k in layer ==> !IsSystems(k)
  }

  /** What merging the first keys of a layer has done. */
  ghost predicate MergedSoFar(u: Unified, layer: map<string, Value>, done: seq<string>, v: Unified)
    requires forall k :: k in done ==> k in layer
  {
    && v.own.None? && Ok(v)
    && forall k :: Get(v.entries, k)
                   == if k in done && k in u.entries && u.entries[k].Table? && layer[k].Table? then
                        Some(DeepMerge(u.entries[k], layer[k]))
                      else if k in done then Some(layer[k])
                      else Get(u.entries, k)
  }

  lemma {:induction false} KeysMerge(u: Unified, layer: map<string, Value>, order: seq<string>)
    requires Ok(u) && u.own.None? && FromFiles(layer)
    requires forall k :: k in order ==> k in layer && !IsSystems(k)
    requires forall i, j :: 0 <= i < j < |order| ==> order[i] != order[j]
    ensures MergedSoFar(u, layer, order, MergeKeys(u, layer, order))
    decreases |order|
  {
    if order != [] {
      var front, key := order[..|order| - 1], order[|order| - 1];
      assert order == front + [key];
      KeysMerge(u, layer, front);
      KeyMerges(u, layer, front, MergeKeys(u, layer, front), key);
    }
  }

  lemma KeyMerges(u: Unified, layer: map<string, Value>, front: seq<string>, v: Unified, key: string)
    requires FromFiles(layer) && key !in front && key in layer && !IsSystems(key)
    requires forall k :: k in front ==> k in layer
    requires MergedSoFar(u, layer, front, v)
    ensures MergedSoFar(u, layer, front + [key], MergeKey(v, key, layer[key]))
  {
    KeyKeeps(v, key, layer[key]);
    hide DeepMerge, IsSystems, Ok;
    var next := MergeKey(v, key, layer[key]);
    assert Get(v.entries, key) == Get(u.entries, key);
    assert Get(next.entries, key)
        == Some(if key in u.entries && u.entries[key].Table?
                then DeepMerge(u.entries[key], layer[key]) else layer[key]);
    forall k | k != key ensures Get(next.entries, k) == Get(v.entries, k) && (k in front + [key] <==> k in front) {}
  }

  /** One layer without a `systems` of its own: `deep_merge` whatever the order of the keys, and
      `systems` shows what `platforms` shows. */
  lemma LayerMerges(u: Unified, layer: map<string, Value>, order: seq<string>)
    requires Ok(u) && u.own.None? && FromFiles(layer) && NoSystems(layer) && Lists(order, layer)
    ensures MergeKeys(u, layer, order) == Unified(DeepMerge(Table(u.entries), Table(layer)).entries, None)
    ensures Look(MergeKeys(u, layer, order), "systems") == Look(MergeKeys(u, layer, order), PLATFORMS)
    ensures Ok(MergeKeys(u, layer, order))
  {
    KeysMerge(u, layer, order);
    var v, m := MergeKeys(u, layer, order), DeepMerge(Table(u.entries), Table(layer));
    forall k ensures Get(v.entries, k) == Get(m.entries, k) {
      if k in layer { assert m.entries[k] == Merged(Table(u.entries), Table(layer), k); }
    }
    SameLookups(v.entries, m.entries);
  }

  /** `resolve_configurations` from the bundled tables on, the keys of each layer in some order. */
  ghost function MergeLayers(u: Unified, layers: seq<map<string, Value>>, orders: seq<seq<string>>): Unified
    requires |layers| == |orders| && forall i :: 0 <= i < |layers| ==> Lists(orders[i], layers[i])
  {
    if layers == [] then u else
      var n := |layers| - 1;
      assert Lists(orders[n], layers[n]);
      MergeKeys(MergeLayers(u, layers[..n], orders[..n]), layers[n], orders[n])
  }

  function Tables(layers: seq<map<string, Value>>): (r: seq<Value>)
    ensures |r| == |layers| && forall i :: 0 <= i < |r| ==> r[i] == Table(layers[i])
  {
    seq(|layers|, i requires 0 <= i < |layers| => Table(layers[i]))
  }

  /** The whole resolution: each path reads as the last layer that speaks of it says, and
      `systems` is the same object as `platforms` to the end. */
  lemma {:induction false} LayersMerge(u: Unified, layers: seq<map<string, Value>>, orders: seq<seq<string>>)
    requires Ok(u) && u.own.None? && |layers| == |orders|
    requires forall i :: 0 <= i < |layers| ==> Lists(orders[i], layers[i])
    requires forall i :: 0 <= i < |layers| ==> FromFiles(layers[i]) && NoSystems(layers[i])
    ensures var v := MergeLayers(u, layers, orders);
      && v.own.None? && Ok(v)
      && Table(v.entries) == Folded(Table(u.entries), Tables(layers))
      && forall q :: Read(Table(v.entries), q) == LastWord(Table(u.entries), Tables(layers), q)
    decreases |layers|
  {
    var first, all := Table(u.entries), Tables(layers);
    forall q ensures Read(Folded(first, all), q) == LastWord(first, all, q) { FoldedIsLastWord(first, all, q); }
    if layers != [] {
      var n := |layers| - 1;
      LayersMerge(u, layers[..n], orders[..n]);
      assert all[..n] == Tables(layers[..n]);
      LayerMerges(MergeLayers(u, layers[..n], orders[..n]), layers[n], orders[n]);
    }
  }
}
