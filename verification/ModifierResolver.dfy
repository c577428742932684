/** `flatten_mapping` and the loop of `modifiers_resolver` (src/opentide/deployment/planning.py). */
module ModifierResolver {
  import opened Options
  import opened Modifiers

  // ---------- flatten_mapping ----------

  ghost predicate Under(value: Value, path: string, key: string) {
    exists q :: q in Leaves(value) && JoinFrom(path, q) == key
  }

  ghost predicate UnderAs(value: Value, path: string, key: string, s: Scalar) {
    exists q :: q in Leaves(value) && JoinFrom(path, q) == key && At(value, q) == Found.Scalar(s)
  }

  /** What `spread` has put into `flat`, which held `before`: the scalars below `value`, each under
      its dotted path. Where two paths spell the same key, one of them is kept. */
  ghost predicate Spread(before: map<string, Scalar>, value: Value, path: string, flat: map<string, Scalar>) {
    && (forall key :: key in flat <==> key in before || Under(value, path, key))
    && (forall key :: key in flat ==>
          UnderAs(value, path, key, flat[key]) || (key in before && flat[key] == before[key]))
  }

  function Extended(path: string, key: string): string { if path == "" then key else path + "." + key }

  method SpreadValue(value: Value, path: string, before: map<string, Scalar>) returns (flat: map<string, Scalar>)
    ensures Spread(before, value, path, flat)
    decreases value
  {
    if value.Leaf? {
      flat := before[path := value.scalar];
      assert [] in Leaves(value) && JoinFrom(path, []) == path;
      return;
    }
    flat := before;
    var done, rest: set<string> := {}, value.entries.Keys;
    assert Part(value, {}) == EMPTY;
    while rest != {}
      invariant done + rest == value.entries.Keys && done !! rest
      invariant Spread(before, Part(value, done), path, flat)
      decreases rest
    {
      var k :| k in rest;
      ghost var sofar := flat;
      flat := SpreadValue(value.entries[k], Extended(path, k), flat);
      SpreadMore(before, value, path, done, k, sofar, flat);
      done, rest := done + {k}, rest - {k};
    }
    assert Part(value, done) == value;
  }

  function Part(value: Value, keys: set<string>): Value
    requires value.Table?
  {
    Table(map k | k in value.entries && k in keys :: value.entries[k])
  }

  /** The scalars of a part with one key more. */
  lemma PartMore(value: Value, path: string, done: set<string>, k: string)
    requires value.Table? && k in value.entries && k !in done
    ensures var less, more, child := Part(value, done), Part(value, done + {k}), value.entries[k];
      && (forall q :: q in Leaves(more) ==> q in Leaves(less) || (q != [] && q[0] == k && q[1..] in Leaves(child)))
      && (forall q :: q in Leaves(less) ==> q in Leaves(more) && At(more, q) == At(less, q))
      && (forall q :: q in Leaves(child) ==>
            && [k] + q in Leaves(more) && At(more, [k] + q) == At(child, q)
            && JoinFrom(path, [k] + q) == JoinFrom(Extended(path, k), q))
  {
    var less, more, child := Part(value, done), Part(value, done + {k}), value.entries[k];
    forall q
      ensures q in Leaves(more) ==> q in Leaves(less) || (q != [] && q[0] == k && q[1..] in Leaves(child))
      ensures q in Leaves(less) ==> q in Leaves(more) && At(more, q) == At(less, q)
    {
      LeavesAre(more, q);
      LeavesAre(less, q);
      if q != [] { LeavesAre(child, q[1..]); }
    }
    forall q | q in Leaves(child)
      ensures [k] + q in Leaves(more) && At(more, [k] + q) == At(child, q)
      ensures JoinFrom(path, [k] + q) == JoinFrom(Extended(path, k), q)
    {
      assert ([k] + q)[1..] == q;
    }
  }

  lemma UnderMore(value: Value, path: string, done: set<string>, k: string, key: string)
    requires value.Table? && k in value.entries && k !in done
    ensures var less, more, child := Part(value, done), Part(value, done + {k}), value.entries[k];
      && (Under(more, path, key) <==> Under(less, path, key) || Under(child, Extended(path, k), key))
      && forall s :: UnderAs(less, path, key, s) || UnderAs(child, Extended(path, k), key, s) ==>
                     UnderAs(more, path, key, s)
  {
    var less, more, child := Part(value, done), Part(value, done + {k}), value.entries[k];
    PartMore(value, path, done, k);
    hide Leaves, Part, JoinFrom, At;
    if Under(more, path, key) {
      var q :| q in Leaves(more) && JoinFrom(path, q) == key;
      if q !in Leaves(less) { assert q == [k] + q[1..] && q[1..] in Leaves(child); }
    }
    if Under(child, Extended(path, k), key) {
      var q :| q in Leaves(child) && JoinFrom(Extended(path, k), q) == key;
      assert [k] + q in Leaves(more);
    }
    forall s | UnderAs(child, Extended(path, k), key, s) ensures UnderAs(more, path, key, s) {
      var q :| q in Leaves(child) && JoinFrom(Extended(path, k), q) == key && At(child, q) == Found.Scalar(s);
      assert [k] + q in Leaves(more);
    }
  }

  lemma SpreadMore(before: map<string, Scalar>, value: Value, path: string, done: set<string>, k: string,
                   sofar: map<string, Scalar>, flat: map<string, Scalar>)
    requires value.Table? && k in value.entries && k !in done
    requires Spread(before, Part(value, done), path, sofar)
    requires Spread(sofar, value.entries[k], Extended(path, k), flat)
    ensures Spread(before, Part(value, done + {k}), path, flat)
  {
    hide Under, UnderAs, Part, Extended;
    forall key
      ensures key in flat <==> key in before || Under(Part(value, done + {k}), path, key)
      ensures key in flat ==>
        UnderAs(Part(value, done + {k}), path, key, flat[key]) || (key in before && flat[key] == before[key])
    {
      UnderMore(value, path, done, k, key);
    }
  }

  predicate PlainLeaves(v: Value) {
    forall p :: p in Leaves(v) ==> PlainPath(p)
  }

  function ScalarAt(v: Value, p: Path): Option<Scalar> {
    if At(v, p).Scalar? then Some(At(v, p).scalar) else None
  }

  /** `flatten_mapping`. With plain keys, every scalar is found under its own dotted path and there
      is nothing else: flattening loses nothing. */
  method FlattenMapping(data: Value) returns (flat: map<string, Scalar>)
    ensures Spread(map[], data, "", flat)
    ensures PlainLeaves(data) ==> forall p | PlainPath(p) :: Get(flat, Join(p)) == ScalarAt(data, p)
    ensures PlainLeaves(data) ==> flat.Keys == set p | p in Leaves(data) :: Join(p)
  {
    flat := SpreadValue(data, "", map[]);
    if PlainLeaves(data) {
      forall p | PlainPath(p) ensures Get(flat, Join(p)) == ScalarAt(data, p) { FlatAt(data, flat, p); }
    }
  }

  lemma FlatAt(data: Value, flat: map<string, Scalar>, p: Path)
    requires Spread(map[], data, "", flat) && PlainLeaves(data) && PlainPath(p)
    ensures Get(flat, Join(p)) == ScalarAt(data, p)
  {
    LeavesAre(data, p);
    if Join(p) in flat {
      var q :| q in Leaves(data) && JoinFrom("", q) == Join(p) && At(data, q) == Found.Scalar(flat[Join(p)]);
      JoinInjective(p, q);
    }
  }

  // ---------- The value of one key ----------

  /** The index of the first `::`. */
  function Separator(s: string): (i: nat)
    ensures i <= |s| && (i < |s| ==> i + 1 < |s| && s[i] == ':' && s[i + 1] == ':')
  {
    if |s| < 2 then |s| else if s[0] == ':' && s[1] == ':' then 0 else 1 + Separator(s[1..])
  }

  /** The second of the parts `split("::")` gives. */
  function SecondPart(s: string): string
    requires Separator(s) < |s|
  {
    var rest := s[Separator(s) + 2..];
    rest[..Separator(rest)]
  }

  /** `current or ""`; `None` when joining it to a string would raise. */
  function AsText(current: Scalar): Option<string> {
    match current
    case Null => Some("")
    case Str(t) => Some(t)
    case Other(truthy, _) => if truthy then None else Some("")
  }

  /** A string with the old text on one side of it; `None` is the `TypeError` for old values that are not text. */
  function Affixed(operator: string, value: string, current: Scalar): Option<Scalar>
    requires operator == "prefix" || operator == "suffix"
  {
    match AsText(current)
    case None => None
    case Some(text) => Some(Str(if operator == "prefix" then value + text else text + value))
  }

  /** The value to set for `wanted`, when the flattened configuration holds `current` under the same key. */
  function Resolve(current: Option<Scalar>, wanted: Scalar): Option<Scalar> {
    if !wanted.Str? then Some(wanted)
    else if wanted.text == "NONE" || wanted.text == "NULL" then Some(Null)
    else if Separator(wanted.text) == |wanted.text| then Some(wanted)
    else
      var operator, value := wanted.text[..Separator(wanted.text)], SecondPart(wanted.text);
      if current.None? then Some(Str(value))
      else if operator == "prefix" || operator == "suffix" then Affixed(operator, value, current.value)
      else Some(wanted)
  }

  /** Two colons in a row. */
  ghost predicate HasColons(s: string) { exists i: nat :: ColonsAt(s, i) }

  predicate ColonsAt(s: string, i: nat) { i + 1 < |s| && s[i] == ':' && s[i + 1] == ':' }

  lemma {:induction false} NoSeparator(s: string)
    requires !HasColons(s)
    ensures Separator(s) == |s|
    decreases |s|
  {
    if |s| >= 2 {
      assert !ColonsAt(s, 0);
      assert forall i: nat :: ColonsAt(s[1..], i) ==> ColonsAt(s, i + 1);
      NoSeparator(s[1..]);
    }
  }

  lemma {:induction false} SeparatorAfter(first: string, rest: string)
    requires !HasColons(first + ":")
    ensures Separator(first + "::" + rest) == |first|
    decreases |first|
  {
    var s := first + "::" + rest;
    if first != "" {
      var longer := first + ":";
      assert !ColonsAt(longer, 0) && s[0] == longer[0] && s[1] == longer[1];
      assert s[1..] == first[1..] + "::" + rest && longer[1..] == first[1..] + ":";
      assert forall i: nat :: ColonsAt(longer[1..], i) ==> ColonsAt(longer, i + 1);
      SeparatorAfter(first[1..], rest);
    }
  }

  /** Values without an operator: the words for nothing, and everything else as it is. */
  lemma ResolvePlain(current: Option<Scalar>, wanted: Scalar)
    ensures !wanted.Str? ==> Resolve(current, wanted) == Some(wanted)
    ensures wanted == Str("NONE") || wanted == Str("NULL") ==> Resolve(current, wanted) == Some(Null)
    ensures wanted.Str? && !HasColons(wanted.text) && wanted.text != "NONE" && wanted.text != "NULL"
            ==> Resolve(current, wanted) == Some(wanted)
  {
    if wanted.Str? && !HasColons(wanted.text) { NoSeparator(wanted.text); }
  }

  /** `prefix::value` puts the value in front of the old text, `suffix::value` behind it; what
      follows a second `::` is dropped. Without an old value the value is set alone, an old value
      that is neither text nor falsy is an error, and any other operator leaves the text as it is. */
  lemma ResolveOperator(current: Option<Scalar>, operator: string, value: string, more: string)
    requires !HasColons(operator + ":")
    requires if more == "" then !HasColons(value) else "::" <= more && !HasColons(value + ":")
    ensures var wanted := Str(operator + "::" + value + more);
      Resolve(current, wanted)
      == match current
         case None => Some(Str(value))
         case Some(Str(before)) =>
           Some(if operator == "prefix" then Str(value + before) else if operator == "suffix" then Str(before + value)
                else wanted)
         case Some(before) =>
           if operator != "prefix" && operator != "suffix" then Some(wanted)
           else if before.Other? && before.truthy then None
           else Some(Str(value))
  {
    SplitOperator(operator, value, more);
    hide Separator, SecondPart, HasColons;
    assert value + "" == value && "" + value == value;
  }

  lemma SplitOperator(operator: string, value: string, more: string)
    requires !HasColons(operator + ":")
    requires if more == "" then !HasColons(value) else "::" <= more && !HasColons(value + ":")
    ensures var text := operator + "::" + value + more;
      && Separator(text) == |operator| < |text| && text[..|operator|] == operator && SecondPart(text) == value
      && text != "NONE" && text != "NULL"
  {
    var text := operator + "::" + value + more;
    assert text == operator + "::" + (value + more);
    SeparatorAfter(operator, value + more);
    assert text[|operator| + 2..] == value + more;
    if more == "" {
      assert value + more == value;
      NoSeparator(value);
    } else {
      assert value + more == value + "::" + more[2..];
      SeparatorAfter(value, more[2..]);
      assert (value + more)[..|value|] == value;
    }
    hide Separator;
    assert text[|operator|] == ':' && !(':' in "NONE") && !(':' in "NULL");
  }

  // ---------- The loop over the flat keys ----------

  /** One turn of the loop: what key `Join(p)` with the value `wanted` does to the configuration. An
      empty `typed` restricts nothing. */
  function Turn(config: Value, p: Path, wanted: Scalar, typed: set<string>): Option<Value>
    requires p != []
  {
    match Resolve(ScalarAt(config, p), wanted)
    case None => None
    case Some(v) =>
      if typed != {} && FirstKey(p, 0) !in typed then Some(config) else DeepUpdate(config, Table(Unroll(p, v, 0)))
  }

  function Turns(config: Value, mods: Value, typed: set<string>, order: seq<Path>): Option<Value>
    requires AllLeaves(mods, order)
  {
    if order == [] then Some(config) else
      var p := order[|order| - 1];
      match Turns(config, mods, typed, order[..|order| - 1])
      case None => None
      case Some(before) => Turn(before, p, At(mods, p).scalar, typed)
  }

  /** The leaf paths of `mods`, each once. */
  ghost predicate Lists(order: seq<Path>, mods: Value) {
    && AllLeaves(mods, order)
    && (forall p :: At(mods, p).Scalar? ==> p in order)
    && NoTwice(order)
  }

  predicate NoTwice(order: seq<Path>) {
    forall i, j :: 0 <= i < j < |order| ==> order[i] != order[j]
  }

  // ---------- One update instead ----------

  /** `mods` with every value resolved against the configuration as it was; a value that cannot be
      resolved stays. */
  function Resolved(config: Value, mods: Value): Value
    decreases mods
  {
    match mods
    case Leaf(s) => Leaf(match Resolve(ScalarAt(config, []), s) case None => s case Some(v) => v)
    case Table(entries) =>
      Table(map k | k in entries :: Resolved(if config.Table? then Child(config, k) else EMPTY, entries[k]))
  }

  /** The part of a tree under the typed root keys. */
  function Restrict(u: Value, typed: set<string>): Value
    requires u.Table?
  {
    if typed == {} then u else Table(map k | k in u.entries && k in typed :: u.entries[k])
  }

  ghost predicate Resolvable(config: Value, mods: Value, p: Path)
    requires At(mods, p).Scalar?
  {
    Resolve(ScalarAt(config, p), At(mods, p).scalar).Some?
  }

  /** The whole modifier as one deep update. */
  ghost function Modified(config: Value, mods: Value, typed: set<string>): Option<Value>
    requires mods.Table?
  {
    if forall p | At(mods, p).Scalar? :: Resolvable(config, mods, p)
    then DeepUpdate(config, Restrict(Resolved(config, mods), typed)) else None
  }

  lemma {:induction false} ResolvedAt(config: Value, mods: Value, q: Path)
    ensures At(Resolved(config, mods), q) == match At(mods, q)
      case Scalar(s) => Found.Scalar(match Resolve(ScalarAt(config, q), s) case None => s case Some(v) => v)
      case other => other
    decreases mods
  {
    if mods.Table? && q != [] && q[0] in mods.entries {
      ResolvedAt(if config.Table? then Child(config, q[0]) else EMPTY, mods.entries[q[0]], q[1..]);
      assert ScalarAt(EMPTY, q[1..]) == None;
    }
  }

  lemma {:induction false} ResolvedNotEmpty(config: Value, mods: Value)
    requires NoEmptyInside(mods)
    ensures NoEmptyInside(Resolved(config, mods)) && (Resolved(config, mods) == EMPTY <==> mods == EMPTY)
    decreases mods
  {
    if mods.Table? {
      forall k | k in mods.entries
        ensures Resolved(config, mods).entries[k] != EMPTY && NoEmptyInside(Resolved(config, mods).entries[k])
      {
        ResolvedNotEmpty(if config.Table? then Child(config, k) else EMPTY, mods.entries[k]);
      }
    }
  }

  lemma RestrictAt(u: Value, typed: set<string>, q: Path)
    requires u.Table?
    ensures At(Restrict(u, typed), q) == if typed != {} && q != [] && q[0] !in typed then Missing else At(u, q)
    ensures NoEmptyInside(u) ==> NoEmptyInside(Restrict(u, typed))
  {
  }

  /** The paths a run does not skip. */
  function Kept(order: seq<Path>, typed: set<string>): seq<Path>
    requires forall i :: 0 <= i < |order| ==> order[i] != []
  {
    if order == [] then [] else
      var p := order[|order| - 1];
      Kept(order[..|order| - 1], typed) + if typed != {} && p[0] !in typed then [] else [p]
  }

  lemma {:induction false} KeptAre(order: seq<Path>, typed: set<string>, p: Path)
    requires forall i :: 0 <= i < |order| ==> order[i] != []
    ensures p in Kept(order, typed) <==> p in order && (typed == {} || p[0] in typed)
    decreases |order|
  {
    if order != [] {
      var front := order[..|order| - 1];
      KeptAre(front, typed, p);
      assert order == front + [order[|order| - 1]];
    }
  }

  lemma KeptLeaves(config: Value, mods: Value, typed: set<string>, order: seq<Path>)
    requires mods.Table? && AllLeaves(mods, order)
    ensures AllLeaves(Restrict(Resolved(config, mods), typed), Kept(order, typed))
  {
    var u, kept := Restrict(Resolved(config, mods), typed), Kept(order, typed);
    forall i | 0 <= i < |kept| ensures kept[i] != [] && At(u, kept[i]).Scalar? {
      KeptAre(order, typed, kept[i]);
      ResolvedAt(config, mods, kept[i]);
      RestrictAt(Resolved(config, mods), typed, kept[i]);
    }
  }

  /** A leaf not yet applied still reads as it did. */
  lemma NotYetTouched(config: Value, u: Value, front: seq<Path>, now: Value, mods: Value, p: Path)
    requires AllLeaves(mods, front) && At(mods, p).Scalar? && p !in front
    requires forall q :: Read(now, q) == OverPaths(config, u, front, q)
    ensures ScalarAt(now, p) == ScalarAt(config, p)
  {
    LeavesApart(mods, front, p, p);
    assert Read(now, p) == OverPaths(config, u, front, p);
  }

  /** When the last segment of every path is new, the turns are single-path updates by the
      resolved tree, and the run stops exactly when one of these fails or a value cannot be
      resolved against the configuration as it was. */
  lemma {:induction false} TurnsAreUpdates(config: Value, mods: Value, typed: set<string>, order: seq<Path>)
    requires config.Table? && mods.Table? && AllLeaves(mods, order) && NoTwice(order)
    requires forall p :: p in order ==> LastIsNew(p)
    ensures AllLeaves(Restrict(Resolved(config, mods), typed), Kept(order, typed))
    ensures Turns(config, mods, typed, order)
            == if forall p | p in order :: Resolvable(config, mods, p)
               then OneByOne(config, Restrict(Resolved(config, mods), typed), Kept(order, typed)) else None
    decreases |order|
  {
    KeptLeaves(config, mods, typed, order);
    if order == [] { return; }
    hide OneByOne, Kept, Restrict, Resolved, Turn, Resolvable, At;
    var front, p := order[..|order| - 1], order[|order| - 1];
    assert order == front + [p];
    TurnsAreUpdates(config, mods, typed, front);
    LastTurn(config, mods, typed, front, p);
    assert (forall q | q in order :: Resolvable(config, mods, q))
           <==> (forall q | q in front :: Resolvable(config, mods, q)) && Resolvable(config, mods, p);
  }

  lemma TurnIs(config: Value, mods: Value, typed: set<string>, now: Value, p: Path)
    requires mods.Table? && p != [] && At(mods, p).Scalar? && LastIsNew(p)
    requires ScalarAt(now, p) == ScalarAt(config, p)
    ensures At(Resolved(config, mods), p).Scalar?
    ensures Turn(now, p, At(mods, p).scalar, typed)
            == if !Resolvable(config, mods, p) then None
               else if typed != {} && p[0] !in typed then Some(now)
               else DeepUpdate(now, Nest(p, At(Resolved(config, mods), p).scalar))
  {
    ResolvedAt(config, mods, p);
    if Resolvable(config, mods, p) {
      UnrollNests(p, At(Resolved(config, mods), p).scalar, 0);
      assert p[0..] == p;
    }
  }

  lemma KeptMore(front: seq<Path>, typed: set<string>, p: Path)
    requires p != [] && forall i :: 0 <= i < |front| ==> front[i] != []
    ensures Kept(front + [p], typed) == Kept(front, typed) + if typed != {} && p[0] !in typed then [] else [p]
  {
    assert (front + [p])[..|front|] == front && (front + [p])[|front|] == p;
  }

  lemma OneMore(config: Value, u: Value, front: seq<Path>, p: Path)
    requires AllLeaves(u, front + [p]) && AllLeaves(u, front)
    ensures p != [] && At(u, p).Scalar?
    ensures OneByOne(config, u, front + [p])
            == match OneByOne(config, u, front)
               case None => None
               case Some(before) => DeepUpdate(before, Nest(p, At(u, p).scalar))
  {
    assert (front + [p])[..|front|] == front && (front + [p])[|front|] == p;
  }

  lemma LastTurn(config: Value, mods: Value, typed: set<string>, front: seq<Path>, p: Path)
    requires config.Table? && mods.Table? && AllLeaves(mods, front) && p !in front
    requires p != [] && At(mods, p).Scalar? && LastIsNew(p)
    requires AllLeaves(Restrict(Resolved(config, mods), typed), Kept(front, typed))
    requires AllLeaves(Restrict(Resolved(config, mods), typed), Kept(front + [p], typed))
    ensures var u := Restrict(Resolved(config, mods), typed);
      match OneByOne(config, u, Kept(front, typed))
      case None => Resolvable(config, mods, p) ==> OneByOne(config, u, Kept(front + [p], typed)).None?
      case Some(now) =>
        Turn(now, p, At(mods, p).scalar, typed)
        == if Resolvable(config, mods, p) then OneByOne(config, u, Kept(front + [p], typed)) else None
  {
    var u, kept := Restrict(Resolved(config, mods), typed), Kept(front, typed);
    KeptMore(front, typed, p);
    var skip := typed != {} && p[0] !in typed;
    assert skip ==> Kept(front + [p], typed) == kept;
    if !skip { OneMore(config, u, kept, p); }
    if OneByOne(config, u, kept).Some? {
      StillUntouched(config, mods, typed, front, p);
      TurnIs(config, mods, typed, OneByOne(config, u, kept).value, p);
      RestrictAt(Resolved(config, mods), typed, p);
    }
    hide *;
  }

  lemma StillUntouched(config: Value, mods: Value, typed: set<string>, front: seq<Path>, p: Path)
    requires config.Table? && mods.Table? && AllLeaves(mods, front) && p !in front && At(mods, p).Scalar?
    requires AllLeaves(Restrict(Resolved(config, mods), typed), Kept(front, typed))
    requires OneByOne(config, Restrict(Resolved(config, mods), typed), Kept(front, typed)).Some?
    ensures ScalarAt(OneByOne(config, Restrict(Resolved(config, mods), typed), Kept(front, typed)).value, p)
            == ScalarAt(config, p)
  {
    var u, kept := Restrict(Resolved(config, mods), typed), Kept(front, typed);
    OneByOneMeans(config, u, kept);
    forall i | 0 <= i < |kept| ensures kept[i] != [] && At(mods, kept[i]).Scalar? { KeptAre(front, typed, kept[i]); }
    KeptAre(front, typed, p);
    hide OneByOne, OverPaths, Restrict, Resolved;
    NotYetTouched(config, u, kept, OneByOne(config, u, kept).value, mods, p);
  }

  /** The tree without its empty tables, which flattening does not see. */
  function Prune(v: Value): Value
    decreases v
  {
    match v
    case Leaf(_) => v
    case Table(entries) => Table(map k | k in entries && Prune(entries[k]) != EMPTY :: Prune(entries[k]))
  }

  lemma {:induction false} PruneHasNoEmpty(v: Value)
    ensures NoEmptyInside(Prune(v))
    ensures NoEmptyInside(v) ==> Prune(v) == v
    decreases v
  {
    if v.Table? {
      forall k | k in v.entries
        ensures NoEmptyInside(Prune(v.entries[k]))
                && (NoEmptyInside(v.entries[k]) ==> Prune(v.entries[k]) == v.entries[k])
      {
        PruneHasNoEmpty(v.entries[k]);
      }
      if NoEmptyInside(v) { assert Prune(v).entries == v.entries; }
    }
  }

  lemma {:induction false} PruneKeepsScalars(v: Value, q: Path)
    ensures ScalarAt(Prune(v), q) == ScalarAt(v, q)
    decreases v
  {
    if v.Table? && q != [] && q[0] in v.entries {
      PruneKeepsScalars(v.entries[q[0]], q[1..]);
      assert ScalarAt(EMPTY, q[1..]) == None;
    }
  }

  lemma {:induction false} PruneKeepsTurns(config: Value, mods: Value, typed: set<string>, order: seq<Path>)
    requires AllLeaves(mods, order)
    ensures AllLeaves(Prune(mods), order)
            && Turns(config, mods, typed, order) == Turns(config, Prune(mods), typed, order)
    decreases |order|
  {
    forall p ensures ScalarAt(Prune(mods), p) == ScalarAt(mods, p) { PruneKeepsScalars(mods, p); }
    assert forall p :: At(Prune(mods), p).Scalar? <==> ScalarAt(Prune(mods), p).Some?;
    if order != [] { PruneKeepsTurns(config, mods, typed, order[..|order| - 1]); }
  }

  /** Applying the flattened keys of a modifier one at a time, in any order, is one deep update by
      the resolved tree, without empty tables, restricted to the typed roots. The two stop with an
      error together. */
  lemma AnyOrderIsOneModification(config: Value, mods: Value, typed: set<string>, order: seq<Path>)
    requires config.Table? && mods.Table?
    requires Lists(order, mods) && forall p :: p in order ==> LastIsNew(p)
    ensures Turns(config, mods, typed, order) == Modified(config, Prune(mods), typed)
  {
    PruneKeepsTurns(config, mods, typed, order);
    PruneHasNoEmpty(mods);
    forall p ensures ScalarAt(Prune(mods), p) == ScalarAt(mods, p) { PruneKeepsScalars(mods, p); }
    assert forall p :: At(Prune(mods), p).Scalar? <==> ScalarAt(Prune(mods), p).Some?;
    AnyOrderOfAPrunedTree(config, Prune(mods), typed, order);
  }

  lemma AnyOrderOfAPrunedTree(config: Value, mods: Value, typed: set<string>, order: seq<Path>)
    requires config.Table? && mods.Table? && NoEmptyInside(mods)
    requires Lists(order, mods) && forall p :: p in order ==> LastIsNew(p)
    ensures Turns(config, mods, typed, order) == Modified(config, mods, typed)
  {
    TurnsAreUpdates(config, mods, typed, order);
    assert (forall p | p in order :: Resolvable(config, mods, p))
           <==> forall p | At(mods, p).Scalar? :: Resolvable(config, mods, p);
    var u := Restrict(Resolved(config, mods), typed);
    ResolvedNotEmpty(config, mods);
    RestrictAt(Resolved(config, mods), typed, []);
    forall p | At(u, p).Scalar? ensures p in Kept(order, typed) {
      RestrictAt(Resolved(config, mods), typed, p);
      ResolvedAt(config, mods, p);
      KeptAre(order, typed, p);
    }
    AnyOrderIsOneUpdate(config, u, Kept(order, typed));
  }

  // ---------- The loop itself ----------

  /** A deep update makes no leaf path of its own. */
  lemma {:induction false} LeavesOfUpdate(base: Value, update: Value, q: Path)
    requires update.Table? && DeepUpdate(base, update).Some? && At(DeepUpdate(base, update).value, q).Scalar?
    ensures At(base, q).Scalar? || At(update, q) == At(DeepUpdate(base, update).value, q)
    decreases update
  {
    if update != EMPTY && q != [] && q[0] in update.entries {
      var k := q[0];
      assert DeepUpdate(base, update).value.entries[k] == Updated(base, update, k).value;
      if update.entries[k].Table? {
        LeavesOfUpdate(Child(base, k), update.entries[k], q[1..]);
      }
    }
  }

  lemma {:induction false} UnrolledKeys(p: Path, s: Scalar, i: nat, q: Path)
    requires i < |p| && PlainPath(p) && At(Table(Unroll(p, s, i)), q).Scalar?
    ensures PlainPath(q)
    decreases |p| - i
  {
    if i < |p| - 1 {
      if p[i] == p[|p| - 1] {
        if q[0] != p[i] { UnrolledKeys(p, s, i + 1, q); }
      } else {
        UnrolledKeys(p, s, i + 1, q[1..]);
        assert q == [p[i]] + q[1..];
      }
    }
  }

  lemma TurnKeepsPlain(config: Value, p: Path, wanted: Scalar, typed: set<string>)
    requires PlainLeaves(config) && PlainPath(p) && Turn(config, p, wanted, typed).Some?
    ensures PlainLeaves(Turn(config, p, wanted, typed).value)
  {
    var v := Resolve(ScalarAt(config, p), wanted).value;
    var next := Turn(config, p, wanted, typed).value;
    hide Resolve, PlainPath;
    forall q | q in Leaves(next) ensures PlainPath(q) {
      LeavesAre(next, q);
      LeavesAre(config, q);
      if At(config, q).Scalar? {
      } else {
        LeavesOfUpdate(config, Table(Unroll(p, v, 0)), q);
        UnrolledKeys(p, v, 0, q);
      }
    }
  }

  function Members(order: seq<Path>): set<Path> { set p | p in order }

  lemma {:induction false} Completed(mods: Value, order: seq<Path>) returns (full: seq<Path>)
    requires mods.Table? && AllLeaves(mods, order) && NoTwice(order)
    ensures Lists(full, mods) && order <= full
    decreases Leaves(mods) - Members(order)
  {
    full := order;
    if p :| At(mods, p).Scalar? && p !in order {
      LeavesAre(mods, p);
      assert p in Leaves(mods) - Members(order) && p in Members(order + [p]);
      full := Completed(mods, order + [p]);
    }
  }

  lemma {:induction false} StoppedForGood(config: Value, mods: Value, typed: set<string>, order: seq<Path>,
                                          full: seq<Path>)
    requires AllLeaves(mods, order) && AllLeaves(mods, full) && order <= full
    requires Turns(config, mods, typed, order).None?
    ensures Turns(config, mods, typed, full).None?
    decreases |full|
  {
    if |order| < |full| {
      StoppedForGood(config, mods, typed, order, full[..|full| - 1]);
    } else {
      assert order == full;
    }
  }

  /** The new value of one flat key. Where several paths of the configuration spell the key, the
      value of one of them is taken. */
  method NewValue(config: Value, key: string, wanted: Scalar) returns (r: Option<Scalar>)
    ensures !Under(config, "", key) ==> r == Resolve(None, wanted)
    ensures Under(config, "", key) ==>
              exists current :: UnderAs(config, "", key, current) && r == Resolve(Some(current), wanted)
    ensures PlainLeaves(config)
            ==> forall p | PlainPath(p) && Join(p) == key :: r == Resolve(ScalarAt(config, p), wanted)
  {
    var current: Option<Scalar> := None;
    if wanted.Str? && wanted.text != "NONE" && wanted.text != "NULL" && Separator(wanted.text) < |wanted.text| {
      var flat := FlattenMapping(config);
      current := Get(flat, key);
      assert current.Some? ==> UnderAs(config, "", key, current.value);
    }
    r := Resolve(current, wanted);
    if Under(config, "", key) && current.None? {
      var q :| q in Leaves(config) && JoinFrom("", q) == key;
      LeavesAre(config, q);
      assert UnderAs(config, "", key, At(config, q).scalar);
    }
  }

  ghost predicate SoFar(config: Value, mods: Value, typed: set<string>, order: seq<Path>, now: Value,
                        rest: set<string>) {
    && PlainLeaves(now) && AllLeaves(mods, order) && NoTwice(order)
    && Turns(config, mods, typed, order) == Some(now)
    && (forall p :: At(mods, p).Scalar? ==> (p in order <==> Join(p) !in rest))
  }

  /** One modifier applied to the rule's configuration: the loop of `modifiers_resolver` over the
      flattened keys, in some order. */
  method ApplyModifier(config: Value, mods: Value, typed: set<string>)
    returns (r: Option<Value>, ghost order: seq<Path>)
    requires config.Table? && mods.Table?
    ensures PlainLeaves(config) && PlainLeaves(mods) ==> Lists(order, mods) && r == Turns(config, mods, typed, order)
    ensures PlainLeaves(config) && PlainLeaves(mods) && (forall p :: p in Leaves(mods) ==> LastIsNew(p))
            ==> r == Modified(config, Prune(mods), typed)
  {
    var modifications := FlattenMapping(mods);
    ghost var plain := PlainLeaves(config) && PlainLeaves(mods);
    var now, rest := config, modifications.Keys;
    order := [];
    forall p | plain && At(mods, p).Scalar? ensures Join(p) in rest { LeavesAre(mods, p); }
    while rest != {}
      invariant rest <= modifications.Keys
      invariant plain ==> SoFar(config, mods, typed, order, now, rest)
      decreases rest
    {
      var key :| key in rest;
      var value := modifications[key];
      ghost var p: Path := [];
      if plain { p := PathOf(mods, modifications, key); }
      var resolved := NewValue(now, key, value);
      var next := None;
      if resolved.Some? {
        var unrolled, root := UnrollDotDict(key, resolved.value);
        if typed != {} && root !in typed {
          next := Some(now);
        } else {
          next := DeepUpdateInPlace(now, Table(unrolled));
        }
        assert plain ==> next == Turn(now, p, value, typed) by { if plain { SplitJoin(p); } }
      }
      if plain { Advance(config, mods, typed, order, now, rest, p, next); }
      order := order + [p];
      if next.None? {
        r := None;
        if plain {
          var full := Completed(mods, order);
          StoppedForGood(config, mods, typed, order, full);
          order := full;
          Finish(config, mods, typed, order);
        }
        return;
      }
      now, rest := next.value, rest - {key};
    }
    r := Some(now);
    if plain { Finish(config, mods, typed, order); }
  }

  lemma PathOf(mods: Value, flat: map<string, Scalar>, key: string) returns (p: Path)
    requires PlainLeaves(mods) && Spread(map[], mods, "", flat) && key in flat
    ensures PlainPath(p) && Join(p) == key && At(mods, p) == Found.Scalar(flat[key])
  {
    assert UnderAs(mods, "", key, flat[key]);
    p :| p in Leaves(mods) && JoinFrom("", p) == key && At(mods, p) == Found.Scalar(flat[key]);
  }

  lemma Advance(config: Value, mods: Value, typed: set<string>, order: seq<Path>, now: Value, rest: set<string>,
                p: Path, next: Option<Value>)
    requires SoFar(config, mods, typed, order, now, rest) && PlainLeaves(mods) && PlainPath(p)
    requires At(mods, p).Scalar? && Join(p) in rest && next == Turn(now, p, At(mods, p).scalar, typed)
    ensures AllLeaves(mods, order + [p]) && NoTwice(order + [p])
    ensures Turns(config, mods, typed, order + [p]) == next
    ensures next.Some? ==> SoFar(config, mods, typed, order + [p], next.value, rest - {Join(p)})
  {
    assert (order + [p])[..|order|] == order && (order + [p])[|order|] == p;
    assert p !in order;
    if next.Some? {
      TurnKeepsPlain(now, p, At(mods, p).scalar, typed);
      forall q | At(mods, q).Scalar? ensures q in order + [p] <==> Join(q) !in rest - {Join(p)} {
        LeavesAre(mods, q);
        if Join(q) == Join(p) { JoinInjective(q, p); }
      }
    }
    hide Turn;
  }

  lemma Finish(config: Value, mods: Value, typed: set<string>, order: seq<Path>)
    requires config.Table? && mods.Table? && Lists(order, mods)
    ensures (forall p :: p in Leaves(mods) ==> LastIsNew(p))
            ==> Turns(config, mods, typed, order) == Modified(config, Prune(mods), typed)
  {
    if (forall p :: p in Leaves(mods) ==> LastIsNew(p)) {
      forall p | p in order ensures LastIsNew(p) { LeavesAre(mods, p); }
      AnyOrderIsOneModification(config, mods, typed, order);
    }
  }

  // ---------- When the last segment is not new ----------

  /** Where the scalars of a run from nothing can be: at the paths whose last segment is new, or
      above the length of some other path. */
  ghost predicate Placed(now: Value, order: seq<Path>, longest: nat) {
    forall q :: At(now, q).Scalar? ==> (q in order && LastIsNew(q)) || |q| < longest
  }

  lemma {:induction false} RunPlaces(mods: Value, typed: set<string>, order: seq<Path>, longest: nat)
    requires AllLeaves(mods, order) && Turns(EMPTY, mods, typed, order).Some?
    requires forall p :: p in order && !LastIsNew(p) ==> |p| <= longest
    ensures Placed(Turns(EMPTY, mods, typed, order).value, order, longest)
    decreases |order|
  {
    if order != [] {
      var front, p := order[..|order| - 1], order[|order| - 1];
      assert order == front + [p];
      RunPlaces(mods, typed, front, longest);
      TurnPlaces(Turns(EMPTY, mods, typed, front).value, front, p, At(mods, p).scalar, typed, longest);
    }
  }

  lemma TurnPlaces(now: Value, front: seq<Path>, p: Path, wanted: Scalar, typed: set<string>, longest: nat)
    requires p != [] && Turn(now, p, wanted, typed).Some? && Placed(now, front, longest)
    requires !LastIsNew(p) ==> |p| <= longest
    ensures Placed(Turn(now, p, wanted, typed).value, front + [p], longest)
  {
    var v := Resolve(ScalarAt(now, p), wanted).value;
    var next := Turn(now, p, wanted, typed).value;
    hide Resolve;
    forall q | At(next, q).Scalar? ensures (q in front + [p] && LastIsNew(q)) || |q| < longest {
      if !At(now, q).Scalar? {
        LeavesOfUpdate(now, Table(Unroll(p, v, 0)), q);
        if LastIsNew(p) {
          UnrollNests(p, v, 0);
          assert p[0..] == p;
          NestAt(p, v, q);
        } else {
          UnrollIsShort(p, v, 0, q);
          NoRepeatsIff(p, 0);
        }
      }
    }
  }

  /** A longest path of the order among those whose last segment is not new. */
  lemma {:induction false} LongestRepeated(order: seq<Path>, p: Path) returns (longest: Path)
    requires p in order && !LastIsNew(p)
    ensures longest in order && !LastIsNew(longest)
    ensures forall q :: q in order && !LastIsNew(q) ==> |q| <= |longest|
    decreases |order|
  {
    var front, last := order[..|order| - 1], order[|order| - 1];
    assert order == front + [last];
    longest := last;
    if other :| other in front && !LastIsNew(other) {
      var before := LongestRepeated(front, other);
      if LastIsNew(last) || |last| <= |before| { longest := before; }
    }
  }

  /** Applied to an empty configuration, the flattened keys give the tree back, without its empty
      tables, exactly when the last segment of every path is new. */
  lemma NothingLostIff(mods: Value, order: seq<Path>)
    requires mods.Table? && Lists(order, mods)
    ensures Turns(EMPTY, mods, {}, order) == Some(Resolved(EMPTY, Prune(mods)))
            <==> forall p :: At(mods, p).Scalar? ==> LastIsNew(p)
  {
    var tree := Prune(mods);
    if forall p :: At(mods, p).Scalar? ==> LastIsNew(p) {
      AnyOrderIsOneModification(EMPTY, mods, {}, order);
      PruneHasNoEmpty(mods);
      ResolvedNotEmpty(EMPTY, tree);
      UpdateOfNothing(Resolved(EMPTY, tree));
      forall p | At(tree, p).Scalar? ensures Resolvable(EMPTY, tree, p) { assert ScalarAt(EMPTY, p) == None; }
    } else {
      var p :| At(mods, p).Scalar? && !LastIsNew(p);
      var longest := LongestRepeated(order, p);
      if Turns(EMPTY, mods, {}, order).Some? {
        RunPlaces(mods, {}, order, |longest|);
        PruneKeepsScalars(mods, longest);
        ResolvedAt(EMPTY, tree, longest);
      }
    }
  }

  lemma {:induction false} UpdateOfNothing(u: Value)
    requires u.Table? && NoEmptyInside(u)
    ensures DeepUpdate(EMPTY, u) == Some(u)
  {
    DeepUpdateMeans(EMPTY, u);
    assert forall q :: !At(EMPTY, q).Scalar?;
    var r := DeepUpdate(EMPTY, u).value;
    if u != EMPTY {
      forall q ensures Read(r, q) == Read(u, q) { assert Read(r, q) == Over(EMPTY, u, q); }
    }
    SameReads(r, u);
  }
}
