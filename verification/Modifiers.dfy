/** Platform modifiers (src/opentide/deployment/planning.py, unroll_dot_dict of
    src/opentide/generation/framework.py): a tree of changes is flattened to dotted keys, and each
    key is unrolled and applied to the rule's configuration. */
module Modifiers {
  import opened Options

  /** A value that is not a mapping. `Other` is a number, a boolean, a list or a date; `truthy` is
      what Python's `or` sees of it. */
  datatype Scalar = Null | Str(text: string) | Other(truthy: bool, shown: string)

  datatype Value = Leaf(scalar: Scalar) | Table(entries: map<string, Value>)

  type Path = seq<string>

  const EMPTY: Value := Table(map[])

  // ---------- Looking a path up ----------

  /** What is at a path: a scalar, a table, or nothing; `Beyond` when a scalar is in the way. */
  datatype Found = Scalar(scalar: Scalar) | Inner | Missing | Beyond

  function At(v: Value, q: Path): Found
    decreases v
  {
    match v
    case Leaf(s) => if q == [] then Found.Scalar(s) else Beyond
    case Table(entries) =>
      if q == [] then Inner else if q[0] in entries then At(entries[q[0]], q[1..]) else Missing
  }

  /** `Beyond` and `Missing` are the same to a reader. */
  function Read(v: Value, q: Path): Found {
    if At(v, q) == Beyond then Missing else At(v, q)
  }

  lemma {:induction false} SameReads(a: Value, b: Value)
    requires forall q :: Read(a, q) == Read(b, q)
    ensures a == b
    decreases a
  {
    assert Read(a, []) == Read(b, []);
    if a.Table? {
      forall k ensures k in a.entries <==> k in b.entries {
        assert [k][1..] == [] && Read(a, [k]) == Read(b, [k]);
        assert At(a, [k]) == if k in a.entries then At(a.entries[k], []) else Missing;
        assert At(b, [k]) == if k in b.entries then At(b.entries[k], []) else Missing;
      }
      forall k | k in a.entries ensures a.entries[k] == b.entries[k] {
        forall q ensures Read(a.entries[k], q) == Read(b.entries[k], q) {
          assert ([k] + q)[1..] == q;
          assert Read(a, [k] + q) == Read(b, [k] + q);
        }
        SameReads(a.entries[k], b.entries[k]);
      }
    }
  }

  /** No table but the whole is empty. */
  predicate NoEmptyInside(v: Value)
    decreases v
  {
    v.Table? ==> forall k :: k in v.entries ==> v.entries[k] != EMPTY && NoEmptyInside(v.entries[k])
  }

  // ---------- _deep_update ----------

  /** `_deep_update(base, update)`; `None` is the `TypeError` of assigning into a value that is not a mapping. */
  function DeepUpdate(base: Value, update: Value): Option<Value>
    requires update.Table?
    decreases update, 1
  {
    if update == EMPTY then Some(base)
    else if base.Leaf? then None
    else if exists k :: k in update.entries && Updated(base, update, k).None? then None
    else Some(Table(base.entries + map k | k in update.entries :: Updated(base, update, k).value))
  }

  /** `base_dictionary.get(key, {})`. */
  function Child(base: Value, k: string): Value
    requires base.Table?
  {
    if k in base.entries then base.entries[k] else EMPTY
  }

  /** The new value of one key. */
  function Updated(base: Value, update: Value, k: string): Option<Value>
    requires base.Table? && update.Table? && k in update.entries
    decreases update, 0
  {
    if update.entries[k].Leaf? then Some(update.entries[k]) else DeepUpdate(Child(base, k), update.entries[k])
  }

  /** The loop of `_deep_update`, over the keys in any order. */
  method DeepUpdateInPlace(base: Value, update: Value) returns (r: Option<Value>)
    requires update.Table?
    ensures r == DeepUpdate(base, update)
    decreases update
  {
    var keys := update.entries.Keys;
    if keys == {} { return Some(base); }
    if base.Leaf? { return None; }
    var dictionary, rest := base.entries, keys;
    while rest != {}
      invariant rest <= keys
      invariant forall k :: k in keys - rest ==> Updated(base, update, k).Some?
      invariant dictionary == base.entries + map k | k in update.entries && k !in rest :: Updated(base, update, k).value
      decreases rest
    {
      var k :| k in rest;
      assert k in dictionary <==> k in base.entries;
      if update.entries[k].Leaf? {
        dictionary := dictionary[k := update.entries[k]];
      } else {
        var inner := DeepUpdateInPlace(if k in dictionary then dictionary[k] else EMPTY, update.entries[k]);
        if inner.None? { return None; }
        dictionary := dictionary[k := inner.value];
      }
      rest := rest - {k};
    }
    assert dictionary == base.entries + map k | k in update.entries :: Updated(base, update, k).value;
    r := Some(Table(dictionary));
  }

  // ---------- What a deep update means ----------

  /** A table with entries is at `q`. */
  predicate FullAt(v: Value, q: Path)
    decreases v
  {
    v.Table? && if q == [] then v != EMPTY else q[0] in v.entries && FullAt(v.entries[q[0]], q[1..])
  }

  /** The update succeeds when no scalar of the base is where the update has a table with entries. */
  ghost predicate Fits(base: Value, update: Value) {
    forall q :: FullAt(update, q) ==> !At(base, q).Scalar?
  }

  /** What is at `q` afterwards. An empty table of the update leaves a scalar where it is. */
  function Over(base: Value, update: Value, q: Path): Found {
    match At(update, q)
    case Missing => Read(base, q)
    case Beyond => Missing
    case Inner => if !FullAt(update, q) && At(base, q).Scalar? then At(base, q) else Inner
    case found => found
  }

  lemma AtKey(v: Value, k: string, q: Path)
    requires v.Table?
    ensures At(v, [k] + q) == if k in v.entries then At(v.entries[k], q) else Missing
    ensures Read(v, [k] + q) == if q == [] && k !in v.entries then Missing else Read(Child(v, k), q)
    ensures FullAt(v, [k] + q) <==> k in v.entries && FullAt(v.entries[k], q)
  {
    assert ([k] + q)[1..] == q;
  }

  /** What `_deep_update` does: it fails exactly when a scalar of the base is in the way, and
      afterwards every path reads as `Over` says. */
  lemma {:induction false} DeepUpdateMeans(base: Value, update: Value)
    requires update.Table?
    ensures DeepUpdate(base, update).Some? <==> Fits(base, update)
    ensures DeepUpdate(base, update).Some?
            ==> forall q :: Read(DeepUpdate(base, update).value, q) == Over(base, update, q)
    decreases update
  {
    if update == EMPTY {
      forall q ensures !FullAt(update, q) && Over(base, update, q) == Read(base, q) {}
      return;
    }
    if base.Leaf? {
      assert FullAt(update, []);
      return;
    }
    forall k | k in update.entries && update.entries[k].Table?
      ensures Updated(base, update, k).Some? <==> Fits(Child(base, k), update.entries[k])
      ensures Updated(base, update, k).Some? ==>
                forall q :: Read(Updated(base, update, k).value, q) == Over(Child(base, k), update.entries[k], q)
    {
      DeepUpdateMeans(Child(base, k), update.entries[k]);
    }
    FitsByKey(base, update);
    if DeepUpdate(base, update).Some? {
      var r := DeepUpdate(base, update).value;
      forall q ensures Read(r, q) == Over(base, update, q) {
        if q != [] {
          var k, rest := q[0], q[1..];
          assert q == [k] + rest;
          AtKey(r, k, rest);
          AtKey(base, k, rest);
          AtKey(update, k, rest);
          if k !in update.entries {
            assert Child(r, k) == Child(base, k) && (k in r.entries <==> k in base.entries);
          } else {
            assert r.entries[k] == Updated(base, update, k).value;
            if update.entries[k].Table? {
              assert Read(Updated(base, update, k).value, rest) == Over(Child(base, k), update.entries[k], rest);
              assert rest == [] ==> At(update.entries[k], rest) == Inner;
            }
          }
        }
      }
    }
  }

  lemma FitsByKey(base: Value, update: Value)
    requires base.Table? && update.Table?
    ensures Fits(base, update)
            <==> forall k :: k in update.entries && update.entries[k].Table? ==> Fits(Child(base, k), update.entries[k])
  {
    if Fits(base, update) {
      forall k, q | k in update.entries && update.entries[k].Table? && FullAt(update.entries[k], q)
        ensures !At(Child(base, k), q).Scalar?
      {
        AtKey(base, k, q);
        AtKey(update, k, q);
        assert FullAt(update, [k] + q);
      }
    }
    if forall k :: k in update.entries && update.entries[k].Table? ==> Fits(Child(base, k), update.entries[k]) {
      forall q | FullAt(update, q) ensures !At(base, q).Scalar? {
        if q != [] {
          var k, rest := q[0], q[1..];
          assert q == [k] + rest;
          AtKey(base, k, rest);
          AtKey(update, k, rest);
          assert update.entries[k].Table?;
        }
      }
    }
  }

  /** Where no table inside is empty, every table has entries. */
  lemma {:induction false} InnerIsFull(v: Value, q: Path)
    requires NoEmptyInside(v) && v != EMPTY
    ensures At(v, q) == Inner <==> FullAt(v, q)
    decreases v
  {
    if v.Table? && q != [] && q[0] in v.entries { InnerIsFull(v.entries[q[0]], q[1..]); }
  }

  // ---------- One path at a time ----------

  /** `{"a": {"b": scalar}}` for the path a, b. */
  function Nest(p: Path, s: Scalar): Value
    requires p != []
  {
    Table(map[p[0] := if |p| == 1 then Leaf(s) else Nest(p[1..], s)])
  }

  lemma {:induction false} NestAt(p: Path, s: Scalar, q: Path)
    requires p != []
    ensures At(Nest(p, s), q)
            == if q == p then Found.Scalar(s) else if q < p then Inner else if p < q then Beyond else Missing
    ensures NoEmptyInside(Nest(p, s)) && Nest(p, s) != EMPTY
    decreases |p|
  {
    var k, rest := p[0], p[1..];
    assert p == [k] + rest;
    assert k in Nest(p, s).entries;
    if |p| > 1 { NestAt(rest, s, if q == [] then [] else q[1..]); }
    if q != [] && q[0] == k {
      assert q == [k] + q[1..];
      assert q < p <==> q[1..] < rest;
      assert p < q <==> rest < q[1..];
    }
  }

  /** The paths of the scalars. */
  function Leaves(v: Value): set<Path>
    decreases v
  {
    match v
    case Leaf(_) => {[]}
    case Table(entries) => set k, q | k in entries && q in Leaves(entries[k]) :: [k] + q
  }

  lemma {:induction false} LeavesAre(v: Value, p: Path)
    ensures p in Leaves(v) <==> At(v, p).Scalar?
    decreases v
  {
    if v.Table? {
      if p != [] && p[0] in v.entries {
        LeavesAre(v.entries[p[0]], p[1..]);
        assert p == [p[0]] + p[1..];
      }
      if p in Leaves(v) {
        var k, q :| k in v.entries && q in Leaves(v.entries[k]) && p == [k] + q;
        assert p[0] == k && p[1..] == q;
      }
    }
  }

  /** A table lies at every prefix of a leaf path, and nothing beyond it. */
  lemma {:induction false} AroundALeaf(v: Value, p: Path, q: Path)
    requires At(v, p).Scalar?
    ensures q < p ==> At(v, q) == Inner
    ensures p < q ==> At(v, q) == Beyond
    decreases v
  {
    if v.Table? && q != [] && q[0] == p[0] {
      assert q < p ==> q[1..] < p[1..];
      assert p < q ==> p[1..] < q[1..];
      AroundALeaf(v.entries[p[0]], p[1..], q[1..]);
    }
  }

  /** Below every table there is a leaf, when no table is empty. */
  lemma {:induction false} LeafBelow(v: Value, q: Path) returns (p: Path)
    requires At(v, q) == Inner && NoEmptyInside(v) && v != EMPTY
    ensures At(v, p).Scalar? && q < p
    decreases v
  {
    var k;
    if q == [] {
      k :| k in v.entries;
      if v.entries[k].Leaf? {
        p := [k];
        assert At(v.entries[k], p[1..]).Scalar?;
        return;
      }
    } else {
      k := q[0];
    }
    var rest := LeafBelow(v.entries[k], if q == [] then [] else q[1..]);
    p := [k] + rest;
    assert p[1..] == rest;
    assert q != [] ==> q == [k] + q[1..];
  }

  /** A path beyond a leaf has that leaf as a prefix. */
  lemma {:induction false} LeafBefore(v: Value, q: Path) returns (p: Path)
    requires At(v, q) == Beyond
    ensures At(v, p).Scalar? && p < q
    decreases v
  {
    if v.Leaf? { return []; }
    var rest := LeafBefore(v.entries[q[0]], q[1..]);
    p := [q[0]] + rest;
    assert p[1..] == rest && q == [q[0]] + q[1..];
  }

  predicate AllLeaves(u: Value, order: seq<Path>) {
    forall i :: 0 <= i < |order| ==> order[i] != [] && At(u, order[i]).Scalar?
  }

  /** Applying the scalars of `u` at the paths of `order`, one deep update each. */
  function OneByOne(base: Value, u: Value, order: seq<Path>): Option<Value>
    requires AllLeaves(u, order)
  {
    if order == [] then Some(base) else
      var p := order[|order| - 1];
      match OneByOne(base, u, order[..|order| - 1])
      case None => None
      case Some(before) => DeepUpdate(before, Nest(p, At(u, p).scalar))
  }

  ghost predicate Passes(order: seq<Path>, q: Path) {
    exists i :: 0 <= i < |order| && q < order[i]
  }

  ghost predicate Covers(order: seq<Path>, q: Path) {
    exists i :: 0 <= i < |order| && order[i] < q
  }

  /** What is at `q` once the paths of `order` have been applied. */
  ghost function OverPaths(base: Value, u: Value, order: seq<Path>, q: Path): Found {
    if q in order then At(u, q)
    else if Passes(order, q) then Inner
    else if Covers(order, q) then Missing
    else Read(base, q)
  }

  /** No scalar is in the way of `p`. */
  ghost predicate Clear(v: Value, p: Path) {
    forall q :: q < p ==> !At(v, q).Scalar?
  }

  ghost predicate ClearFor(v: Value, order: seq<Path>) {
    forall q :: Passes(order, q) ==> !At(v, q).Scalar?
  }

  lemma AllClear(v: Value, front: seq<Path>, p: Path)
    ensures ClearFor(v, front + [p]) <==> ClearFor(v, front) && Clear(v, p)
  {
    forall q ensures Passes(front + [p], q) <==> Passes(front, q) || q < p { PassesMore(front, p, q); }
    if ClearFor(v, front + [p]) {
      forall q | Passes(front, q) || q < p ensures !At(v, q).Scalar? { assert Passes(front + [p], q); }
    }
    if ClearFor(v, front) && Clear(v, p) {
      forall q | Passes(front + [p], q) ensures !At(v, q).Scalar? { assert Passes(front, q) || q < p; }
    }
  }

  lemma {:induction false} OneByOneMeans(base: Value, u: Value, order: seq<Path>)
    requires AllLeaves(u, order) && base.Table?
    ensures OneByOne(base, u, order).Some? <==> ClearFor(base, order)
    ensures OneByOne(base, u, order).Some? ==>
              OneByOne(base, u, order).value.Table?
              && forall q :: Read(OneByOne(base, u, order).value, q) == OverPaths(base, u, order, q)
    decreases |order|
  {
    if order != [] {
      var front, p := order[..|order| - 1], order[|order| - 1];
      assert order == front + [p];
      OneByOneMeans(base, u, front);
      AllClear(base, front, p);
      if OneByOne(base, u, front).Some? {
        OneMorePath(base, u, front, p);
      }
    }
  }

  lemma PassesMore(front: seq<Path>, p: Path, q: Path)
    ensures Passes(front + [p], q) <==> Passes(front, q) || q < p
    ensures Covers(front + [p], q) <==> Covers(front, q) || p < q
  {
    var order := front + [p];
    assert order[|front|] == p;
    if Passes(front, q) {
      var i :| 0 <= i < |front| && q < front[i];
      assert q < order[i];
    }
    if Covers(front, q) {
      var i :| 0 <= i < |front| && front[i] < q;
      assert order[i] < q;
    }
  }

  lemma FitsNest(v: Value, p: Path, s: Scalar)
    requires p != []
    ensures Fits(v, Nest(p, s)) <==> Clear(v, p)
  {
    if Fits(v, Nest(p, s)) {
      forall q | q < p ensures !At(v, q).Scalar? {
        NestAt(p, s, q);
        InnerIsFull(Nest(p, s), q);
      }
    }
    if Clear(v, p) {
      forall q | FullAt(Nest(p, s), q) ensures !At(v, q).Scalar? {
        NestAt(p, s, q);
        InnerIsFull(Nest(p, s), q);
      }
    }
  }

  lemma ClearStill(base: Value, u: Value, front: seq<Path>, now: Value, p: Path)
    requires AllLeaves(u, front) && At(u, p).Scalar?
    requires ClearFor(base, front)
    requires forall q :: Read(now, q) == OverPaths(base, u, front, q)
    ensures Clear(now, p) <==> Clear(base, p)
  {
    forall q | q < p ensures At(now, q).Scalar? <==> At(base, q).Scalar? {
      assert Read(now, q) == OverPaths(base, u, front, q);
      NoLeafBefore(u, front, p, q);
    }
    if Clear(now, p) {
      forall q | q < p ensures !At(base, q).Scalar? { assert !At(now, q).Scalar?; }
    }
    if Clear(base, p) {
      forall q | q < p ensures !At(now, q).Scalar? { assert !At(base, q).Scalar?; }
    }
  }

  lemma OneMorePath(base: Value, u: Value, front: seq<Path>, p: Path)
    requires AllLeaves(u, front) && p != [] && At(u, p).Scalar? && base.Table?
    requires OneByOne(base, u, front).Some? && OneByOne(base, u, front).value.Table?
    requires ClearFor(base, front)
    requires forall q :: Read(OneByOne(base, u, front).value, q) == OverPaths(base, u, front, q)
    ensures var now, nest := OneByOne(base, u, front).value, Nest(p, At(u, p).scalar);
            && (DeepUpdate(now, nest).Some? <==> Clear(base, p))
            && (DeepUpdate(now, nest).Some? ==>
                  DeepUpdate(now, nest).value.Table?
                  && forall q :: Read(DeepUpdate(now, nest).value, q) == OverPaths(base, u, front + [p], q))
  {
    var now, s := OneByOne(base, u, front).value, At(u, p).scalar;
    assert AllLeaves(u, front + [p]);
    NestAt(p, s, []);
    DeepUpdateMeans(now, Nest(p, s));
    FitsNest(now, p, s);
    ClearStill(base, u, front, now, p);
    if DeepUpdate(now, Nest(p, s)).Some? {
      var after := DeepUpdate(now, Nest(p, s)).value;
      forall q ensures Read(after, q) == OverPaths(base, u, front + [p], q) {
        NestAt(p, s, q);
        InnerIsFull(Nest(p, s), q);
        PassesMore(front, p, q);
        LeavesApart(u, front, p, q);
        assert Read(after, q) == Over(now, Nest(p, s), q);
      }
      assert Read(after, []) == Inner by { NestAt(p, s, []); }
    }
  }

  lemma NoLeafBefore(u: Value, front: seq<Path>, p: Path, q: Path)
    requires AllLeaves(u, front) && At(u, p).Scalar? && q < p
    ensures q !in front && !Covers(front, q)
  {
    if q in front { AroundALeaf(u, q, p); }
    if Covers(front, q) {
      var i :| 0 <= i < |front| && front[i] < q;
      AroundALeaf(u, front[i], p);
    }
  }

  lemma LeavesApart(u: Value, front: seq<Path>, p: Path, q: Path)
    requires AllLeaves(u, front) && At(u, p).Scalar?
    ensures q in front ==> !(q < p) && !(p < q)
    ensures Passes(front, q) ==> q != p && !(p < q)
    ensures Covers(front, q) ==> q != p && !(q < p)
  {
    if q in front && (q < p || p < q) { AroundALeaf(u, p, q); AroundALeaf(u, q, p); }
    if Passes(front, q) {
      var i :| 0 <= i < |front| && q < front[i];
      if q == p || p < q { AroundALeaf(u, p, front[i]); }
    }
    if Covers(front, q) {
      var i :| 0 <= i < |front| && front[i] < q;
      if q == p || q < p { AroundALeaf(u, front[i], p); }
    }
  }

  ghost predicate AllOf(u: Value, order: seq<Path>) {
    AllLeaves(u, order) && forall p :: At(u, p).Scalar? ==> p in order
  }

  /** The paths of all scalars pass every table, and cover what is beyond a scalar. */
  lemma LeavesCover(u: Value, order: seq<Path>, q: Path)
    requires NoEmptyInside(u) && u != EMPTY && AllOf(u, order)
    ensures Passes(order, q) <==> At(u, q) == Inner
    ensures Covers(order, q) <==> At(u, q) == Beyond
    ensures q in order <==> At(u, q).Scalar?
  {
    if Passes(order, q) {
      var i :| 0 <= i < |order| && q < order[i];
      AroundALeaf(u, order[i], q);
    }
    if Covers(order, q) {
      var i :| 0 <= i < |order| && order[i] < q;
      AroundALeaf(u, order[i], q);
    }
    if At(u, q) == Inner {
      var p := LeafBelow(u, q);
      assert p in order;
    }
    if At(u, q) == Beyond {
      var p := LeafBefore(u, q);
      assert p in order;
    }
  }

  lemma SameOver(base: Value, u: Value, order: seq<Path>, q: Path)
    requires NoEmptyInside(u) && u != EMPTY && AllOf(u, order)
    ensures OverPaths(base, u, order, q) == Over(base, u, q)
    ensures Passes(order, q) <==> FullAt(u, q)
  {
    hide NoEmptyInside, AllOf, Passes, Covers, FullAt, At;
    LeavesCover(u, order, q);
    InnerIsFull(u, q);
  }

  lemma SameFits(base: Value, u: Value, order: seq<Path>)
    requires NoEmptyInside(u) && u != EMPTY && AllOf(u, order)
    ensures ClearFor(base, order) <==> Fits(base, u)
  {
    forall q ensures Passes(order, q) <==> FullAt(u, q) { SameOver(base, u, order, q); }
  }

  /** Applying every scalar of the tree by itself, in any order, is one deep update by the tree;
      the two fail together. */
  lemma AnyOrderIsOneUpdate(base: Value, u: Value, order: seq<Path>)
    requires base.Table? && u.Table? && NoEmptyInside(u)
    requires AllLeaves(u, order) && forall p :: At(u, p).Scalar? ==> p in order
    ensures OneByOne(base, u, order) == DeepUpdate(base, u)
  {
    if u == EMPTY {
      assert |order| > 0 ==> order[0] != [] && At(u, order[0]) == Missing;
      return;
    }
    hide DeepUpdate, OneByOne, OverPaths, Over, Passes, Covers, FullAt, NoEmptyInside;
    OneByOneMeans(base, u, order);
    DeepUpdateMeans(base, u);
    forall q ensures OverPaths(base, u, order, q) == Over(base, u, q) { SameOver(base, u, order, q); }
    SameFits(base, u, order);
    if OneByOne(base, u, order).Some? {
      SameReads(OneByOne(base, u, order).value, DeepUpdate(base, u).value);
    }
  }

  // ---------- Dotted keys ----------

  predicate DotFree(k: string) { k != "" && forall i :: 0 <= i < |k| ==> k[i] != '.' }

  predicate PlainPath(p: Path) { p != [] && forall i :: 0 <= i < |p| ==> DotFree(p[i]) }

  /** The path `spread` builds: an empty path so far is replaced, not extended. */
  function JoinFrom(path: string, q: Path): string
    decreases |q|
  {
    if q == [] then path else JoinFrom(if path == "" then q[0] else path + "." + q[0], q[1..])
  }

  function Join(q: Path): string { JoinFrom("", q) }

  /** `key.split(".")`. */
  function Split(s: string): (p: Path)
    ensures p != []
  {
    if s == "" then [""]
    else if s[0] == '.' then [""] + Split(s[1..])
    else [[s[0]] + Split(s[1..])[0]] + Split(s[1..])[1..]
  }

  function Dotted(q: Path): string {
    if q == [] then "" else "." + q[0] + Dotted(q[1..])
  }

  lemma {:induction false} JoinIsDotted(path: string, q: Path)
    requires path != ""
    ensures JoinFrom(path, q) == path + Dotted(q)
    decreases |q|
  {
    if q != [] {
      JoinIsDotted(path + "." + q[0], q[1..]);
      assert path + "." + q[0] + Dotted(q[1..]) == path + ("." + q[0] + Dotted(q[1..]));
    }
  }

  lemma {:induction false} SplitDotted(k: string, q: Path)
    requires (forall i :: 0 <= i < |k| ==> k[i] != '.') && forall i :: 0 <= i < |q| ==> DotFree(q[i])
    ensures Split(k + Dotted(q)) == [k] + q
    decreases |q|, |k|
  {
    var s := k + Dotted(q);
    if k != "" {
      assert s[1..] == k[1..] + Dotted(q);
      SplitDotted(k[1..], q);
      assert s[0] == k[0] && [k[0]] + k[1..] == k && ([k[1..]] + q)[1..] == q;
    } else if q != [] {
      assert s[1..] == q[0] + Dotted(q[1..]);
      SplitDotted(q[0], q[1..]);
      assert q == [q[0]] + q[1..];
    }
  }

  predicate NoDot(k: string) { forall i :: 0 <= i < |k| ==> k[i] != '.' }

  /** `".".join(p)`. */
  function DotJoined(p: Path): string
    requires p != []
  {
    if |p| == 1 then p[0] else p[0] + "." + DotJoined(p[1..])
  }

  /** Of any text: the segments hold no dot, and joined by dots they are the text again. */
  lemma {:induction false} SplitIs(s: string)
    ensures DotJoined(Split(s)) == s && forall i :: 0 <= i < |Split(s)| ==> NoDot(Split(s)[i])
    decreases |s|
  {
    if s != "" {
      SplitIs(s[1..]);
      assert s == [s[0]] + s[1..];
      var p := Split(s[1..]);
      assert Split(s)[1..] == if s[0] == '.' then p else p[1..];
      if s[0] != '.' && |p| > 1 { assert [s[0]] + (p[0] + "." + DotJoined(p[1..])) == s; }
    }
  }

  /** Splitting a joined path gives it back, when no key is empty or holds a dot. */
  lemma SplitJoin(p: Path)
    requires PlainPath(p)
    ensures Split(Join(p)) == p
  {
    JoinIsDotted(p[0], p[1..]);
    assert DotFree(p[0]) && forall i :: 0 <= i < |p[1..]| ==> DotFree(p[1..][i]);
    SplitDotted(p[0], p[1..]);
    assert p == [p[0]] + p[1..];
  }

  lemma JoinInjective(p: Path, q: Path)
    requires PlainPath(p) && PlainPath(q) && Join(p) == Join(q)
    ensures p == q
  {
    SplitJoin(p);
    SplitJoin(q);
  }

  // ---------- unroll_dot_dict ----------

  /** `dictionary[key] = value`. */
  function With(dictionary: map<string, Value>, key: string, value: Value): (m: map<string, Value>)
    ensures key in m
  {
    dictionary[key := value]
  }

  /** The dictionary `unroll_dot_dict` has built from the segments `p[i..]`, and its first key. A
      segment equal to the last one is set beside what is there, not wrapped around it: the code
      asks for the segment's first index in the reversed list. */
  function Unroll(p: Path, s: Scalar, i: nat): (m: map<string, Value>)
    requires i < |p|
    ensures exists k :: k in m
    decreases |p| - i
  {
    var last := p[|p| - 1];
    if i == |p| - 1 then With(map[], last, Leaf(s))
    else if p[i] == last then With(Unroll(p, s, i + 1), last, Leaf(s))
    else With(map[], p[i], Table(Unroll(p, s, i + 1)))
  }

  function FirstKey(p: Path, i: nat): string
    requires i < |p|
    decreases |p| - i
  {
    if i < |p| - 1 && p[i] == p[|p| - 1] then FirstKey(p, i + 1) else p[i]
  }

  /** `nested_keys.index(key)`. */
  function IndexOf(keys: Path, key: string): (i: nat)
    requires key in keys
    ensures i < |keys| && keys[i] == key && forall j :: 0 <= j < i ==> keys[j] != key
  {
    if keys[0] == key then 0 else 1 + IndexOf(keys[1..], key)
  }

  function Reversed(p: Path): (r: Path)
    ensures |r| == |p| && forall i :: 0 <= i < |p| ==> r[i] == p[|p| - 1 - i]
  {
    if p == [] then [] else [p[|p| - 1]] + Reversed(p[..|p| - 1])
  }

  method UnrollDotDict(longKey: string, s: Scalar) returns (unrolled: map<string, Value>, firstKey: string)
    ensures var p := Split(longKey);
            unrolled == Unroll(p, s, 0) && firstKey == FirstKey(p, 0)
  {
    var p := Split(longKey);
    var nestedKeys := Reversed(p);
    unrolled, firstKey := map[], "";
    var n := 0;
    while n < |nestedKeys|
      invariant n <= |p|
      invariant n == 0 ==> unrolled == map[]
      invariant n > 0 ==> unrolled == Unroll(p, s, |p| - n) && firstKey == FirstKey(p, |p| - n)
    {
      var key := nestedKeys[n];
      assert key == p[|p| - 1 - n] && nestedKeys[0] == p[|p| - 1];
      var currentIndex := IndexOf(nestedKeys, key);
      if currentIndex == 0 {
        if unrolled == map[] { firstKey := key; }
        unrolled := unrolled[key := Leaf(s)];
      } else {
        unrolled, firstKey := map[key := Table(unrolled)], key;
      }
      n := n + 1;
    }
  }

  /** The last segment does not occur earlier. */
  predicate LastIsNew(p: Path) { p != [] && forall i :: 0 <= i < |p| - 1 ==> p[i] != p[|p| - 1] }

  /** Segments from `i` on that repeat the last one. */
  function Repeats(p: Path, i: nat): nat
    requires i < |p|
    decreases |p| - i
  {
    if i == |p| - 1 then 0 else Repeats(p, i + 1) + if p[i] == p[|p| - 1] then 1 else 0
  }

  lemma {:induction false} UnrollNests(p: Path, s: Scalar, i: nat)
    requires i < |p| && LastIsNew(p)
    ensures Table(Unroll(p, s, i)) == Nest(p[i..], s) && FirstKey(p, i) == p[i]
    decreases |p| - i
  {
    if i < |p| - 1 { UnrollNests(p, s, i + 1); }
  }

  /** Every repetition of the last segment makes the unrolled paths shorter. */
  lemma {:induction false} UnrollIsShort(p: Path, s: Scalar, i: nat, q: Path)
    requires i < |p| && At(Table(Unroll(p, s, i)), q).Scalar?
    ensures |q| + Repeats(p, i) <= |p| - i
    ensures At(Table(Unroll(p, s, i)), q) == Found.Scalar(s)
    decreases |p| - i
  {
    var last := p[|p| - 1];
    if i < |p| - 1 {
      if p[i] == last {
        RepeatsBound(p, i + 1);
        if q[0] != last { UnrollIsShort(p, s, i + 1, q); }
      } else {
        UnrollIsShort(p, s, i + 1, q[1..]);
      }
    }
  }

  lemma {:induction false} RepeatsBound(p: Path, i: nat)
    requires i < |p|
    ensures Repeats(p, i) < |p| - i
    decreases |p| - i
  {
    if i < |p| - 1 { RepeatsBound(p, i + 1); }
  }

  lemma {:induction false} NoRepeatsIff(p: Path, i: nat)
    requires i < |p|
    ensures Repeats(p, i) == 0 <==> forall j :: i <= j < |p| - 1 ==> p[j] != p[|p| - 1]
    decreases |p| - i
  {
    if i < |p| - 1 { NoRepeatsIff(p, i + 1); }
  }

  /** Unrolling a dotted key nests its segments exactly when the last one is new. */
  lemma UnrollNestsIff(p: Path, s: Scalar)
    requires p != []
    ensures Table(Unroll(p, s, 0)) == Nest(p, s) <==> LastIsNew(p)
  {
    if LastIsNew(p) {
      UnrollNests(p, s, 0);
      assert p[0..] == p;
    } else {
      NestAt(p, s, p);
      NoRepeatsIff(p, 0);
      if At(Table(Unroll(p, s, 0)), p).Scalar? { UnrollIsShort(p, s, 0, p); }
    }
  }

  /** The segments but those equal to the last one. */
  function Others(p: Path, last: string): Path {
    if p == [] then [] else (if p[0] == last then [] else [p[0]]) + Others(p[1..], last)
  }

  /** A way to the value: one occurrence of the last segment, below the other segments before it. */
  predicate Way(p: Path, i: nat, j: nat, q: Path)
    requires i <= j < |p|
  {
    p[j] == p[|p| - 1] && q == Others(p[i..j], p[|p| - 1]) + [p[j]]
  }

  ghost predicate HasWay(p: Path, i: nat, q: Path)
    requires i < |p|
  {
    exists j :: i <= j < |p| && Way(p, i, j, q)
  }

  lemma HasWayStep(p: Path, i: nat, q: Path)
    requires i < |p| - 1
    ensures HasWay(p, i, q)
            <==> if p[i] == p[|p| - 1] then q == [p[i]] || HasWay(p, i + 1, q)
                 else q != [] && q[0] == p[i] && HasWay(p, i + 1, q[1..])
  {
    hide Others;
    var last := p[|p| - 1];
    assert Others(p[i..i], last) == [] by { assert p[i..i] == []; NoOthers(last); }
    if HasWay(p, i, q) {
      var j :| i <= j < |p| && Way(p, i, j, q);
      if j > i { WayStep(p, i, j, q); }
    }
    if p[i] == last {
      if q == [p[i]] { assert Way(p, i, i, q); }
      if HasWay(p, i + 1, q) {
        var j :| i + 1 <= j < |p| && Way(p, i + 1, j, q);
        WayStep(p, i, j, q);
      }
    } else if q != [] && q[0] == p[i] && HasWay(p, i + 1, q[1..]) {
      var j :| i + 1 <= j < |p| && Way(p, i + 1, j, q[1..]);
      WayStep(p, i, j, q);
    }
  }

  lemma NoOthers(last: string)
    ensures Others([], last) == []
  {
  }

  lemma WayStep(p: Path, i: nat, j: nat, q: Path)
    requires i < j < |p|
    ensures Way(p, i, j, q)
            <==> if p[i] == p[|p| - 1] then Way(p, i + 1, j, q)
                 else q != [] && q[0] == p[i] && Way(p, i + 1, j, q[1..])
  {
    var last := p[|p| - 1];
    assert p[i..j][1..] == p[i + 1..j];
    var rest := Others(p[i + 1..j], last);
    assert Others(p[i..j], last) == (if p[i] == last then [] else [p[i]]) + rest;
    hide Others;
    assert [] + rest == rest && [p[i]] + rest + [p[j]] == [p[i]] + (rest + [p[j]]);
    if q != [] { assert q == [q[0]] + q[1..]; }
  }

  /** Of any dotted key: the value stands once for each occurrence of the last segment, below the
      other segments before that, and nowhere else. */
  lemma {:induction false} UnrollLeaves(p: Path, s: Scalar, i: nat, q: Path)
    requires i < |p|
    ensures At(Table(Unroll(p, s, i)), q).Scalar? <==> HasWay(p, i, q)
    ensures HasWay(p, i, q) ==> At(Table(Unroll(p, s, i)), q) == Found.Scalar(s)
    decreases |p| - i
  {
    var last := p[|p| - 1];
    if i == |p| - 1 {
      assert Others(p[i..i], last) == [] && [] + [last] == [last];
      assert HasWay(p, i, q) <==> q == [last] by { assert Way(p, i, i, [last]); }
    } else {
      HasWayStep(p, i, q);
      UnrollLeaves(p, s, i + 1, q);
      if q != [] { UnrollLeaves(p, s, i + 1, q[1..]); }
      if p[i] == last && q != [] && q[0] == last && q != [last] {
        NothingBelowTheLast(p, i + 1, q);
      }
    }
  }

  /** No way goes on below the last segment. */
  lemma {:induction false} NothingBelowTheLast(p: Path, i: nat, q: Path)
    requires i < |p| && |q| > 1 && q[0] == p[|p| - 1]
    ensures !HasWay(p, i, q)
    decreases |p| - i
  {
    var last := p[|p| - 1];
    if i == |p| - 1 {
      assert forall j :: i <= j < |p| ==> Others(p[i..j], last) == [];
    } else {
      HasWayStep(p, i, q);
      NothingBelowTheLast(p, i + 1, q);
    }
  }

  /** The root key is the first segment that differs from the last, or that one. */
  lemma {:induction false} FirstKeyIs(p: Path, i: nat)
    requires i < |p|
    ensures FirstKey(p, i) == (Others(p[i..], p[|p| - 1]) + [p[|p| - 1]])[0]
    decreases |p| - i
  {
    assert p[i..][1..] == p[i + 1..];
    if i < |p| - 1 { FirstKeyIs(p, i + 1); } else { assert Others(p[i + 1..], p[i]) == []; }
  }
}
