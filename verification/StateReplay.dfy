/** Deployment-state shards (src/opentide/states/deployment.py) and the replay of one commit's
    delta onto a checkout (src/opentide/ci/state_replay.py). */
module StateReplay {
  import opened Options
  import opened ThreeWay

  // ---------- Shards ----------

  datatype Key = Key(platform: string, tenant: string)

  type Bindings = map<Key, string>

  /** A shard as the file holds it: tenants under their platform. */
  type Platforms = map<string, map<string, string>>

  const STATE_PLATFORMS := {"crowdstrike", "defender_for_endpoint", "sentinel_one", "sysdig"}
  const INTEGER_ID_PLATFORMS := {"defender_for_endpoint", "sentinel_one", "sysdig"}

  function BindingsOf(platforms: Platforms): Bindings {
    map p, t | p in platforms && t in platforms[p] :: Key(p, t) := platforms[p][t]
  }

  lemma BindingsAt(platforms: Platforms, p: string, t: string)
    ensures Get(BindingsOf(platforms), Key(p, t)) == if p in platforms then Get(platforms[p], t) else None
  {
  }

  /** `dict.setdefault(platform, {})[tenant] = id`. */
  function WithTenant(platforms: Platforms, p: string, t: string, id: string): Platforms {
    platforms[p := (if p in platforms then platforms[p] else map[])[t := id]]
  }

  /** Dropping one tenant, and the platform when it has none left. */
  function WithoutTenant(platforms: Platforms, p: string, t: string): Platforms
    requires p in platforms
  {
    var left := platforms[p] - {t};
    if left == map[] then platforms - {p} else platforms[p := left]
  }

  lemma WithTenantBinds(platforms: Platforms, p: string, t: string, id: string)
    ensures BindingsOf(WithTenant(platforms, p, t, id)) == BindingsOf(platforms)[Key(p, t) := id]
  {
    var l, r := BindingsOf(WithTenant(platforms, p, t, id)), BindingsOf(platforms)[Key(p, t) := id];
    forall k: Key ensures Get(l, k) == Get(r, k) {
      BindingsAt(platforms, k.platform, k.tenant);
      BindingsAt(WithTenant(platforms, p, t, id), k.platform, k.tenant);
    }
    SameLookups(l, r);
  }

  lemma WithoutTenantUnbinds(platforms: Platforms, p: string, t: string)
    requires p in platforms
    ensures BindingsOf(WithoutTenant(platforms, p, t)) == BindingsOf(platforms) - {Key(p, t)}
  {
    var l, r := BindingsOf(WithoutTenant(platforms, p, t)), BindingsOf(platforms) - {Key(p, t)};
    var left := platforms[p] - {t};
    assert forall u :: Get(left, u) == if u == t then None else Get(platforms[p], u);
    forall k: Key ensures Get(l, k) == Get(r, k) {
      BindingsAt(platforms, k.platform, k.tenant);
      BindingsAt(WithoutTenant(platforms, p, t), k.platform, k.tenant);
      assert Get(left, k.tenant) == if k.tenant == t then None else Get(platforms[p], k.tenant);
    }
    SameLookups(l, r);
  }

  predicate IsSpace(c: char) {
    '\U{9}' <= c <= '\U{d}' || '\U{1c}' <= c <= ' ' || c in {'\U{85}', '\U{a0}', '\U{1680}'}
    || '\U{2000}' <= c <= '\U{200a}' || c in {'\U{2028}', '\U{2029}', '\U{202f}', '\U{205f}', '\U{3000}'}
  }

  function Strip(s: string): string {
    if s == "" then s
    else if IsSpace(s[0]) then Strip(s[1..])
    else if IsSpace(s[|s| - 1]) then Strip(s[..|s| - 1])
    else s
  }

  predicate AllSpace(s: string) { forall i :: 0 <= i < |s| ==> IsSpace(s[i]) }

  /** `strip` takes the white space off both ends and nothing else. */
  lemma {:induction false} StripIs(lead: string, s: string, tail: string)
    requires AllSpace(lead) && AllSpace(tail)
    requires s != "" ==> !IsSpace(s[0]) && !IsSpace(s[|s| - 1])
    ensures Strip(lead + s + tail) == s
    decreases |lead| + |tail|
  {
    hide IsSpace;
    var text := lead + s + tail;
    if lead != "" {
      assert text[0] == lead[0] && text[1..] == lead[1..] + s + tail;
      StripIs(lead[1..], s, tail);
    } else if tail != "" {
      assert text[|text| - 1] == tail[|tail| - 1] && text[..|text| - 1] == lead + s + tail[..|tail| - 1];
      assert s == "" ==> text == tail;
      StripIs(lead, s, tail[..|tail| - 1]);
      if s == "" {
        assert text[1..] == lead + s + tail[1..];
        StripIs(lead, s, tail[1..]);
      }
    } else {
      assert text == s;
    }
  }

  predicate IsCanonicalDecimal(s: string) {
    s == "0" || (s != "" && s[0] != '0' && forall i :: 0 <= i < |s| ==> '0' <= s[i] <= '9')
  }

  /** What `normalise_external_id` accepts of a string, which it then stores unchanged. */
  predicate IdShape(platform: string, id: string) {
    Strip(id) != "" && (platform in INTEGER_ID_PLATFORMS ==> IsCanonicalDecimal(id))
  }

  /** What a caller hands over as an id; `Unusable` is a boolean and every other type. */
  datatype VendorId = Text(text: string) | Number(number: int) | Unusable

  function Decimal(n: nat): (s: string)
    ensures IsCanonicalDecimal(s)
  {
    if n < 10 then [Digit(n)] else Decimal(n / 10) + [Digit(n % 10)]
  }

  function Digit(d: nat): (c: char)
    requires d < 10
    ensures '0' <= c <= '9' && c as int == '0' as int + d
  {
    '0' + d as char
  }

  function ValueOf(s: string): nat
    requires forall i :: 0 <= i < |s| ==> '0' <= s[i] <= '9'
  {
    if s == "" then 0 else 10 * ValueOf(s[..|s| - 1]) + (s[|s| - 1] as int - '0' as int)
  }

  lemma {:induction false} ValueOfDecimal(n: nat)
    ensures ValueOf(Decimal(n)) == n
    decreases n
  {
    if n >= 10 {
      ValueOfDecimal(n / 10);
      assert Decimal(n)[..|Decimal(n)| - 1] == Decimal(n / 10);
    } else {
      assert ValueOf([Digit(n)][..0]) == 0;
    }
  }

  lemma {:induction false} Positive(s: string)
    requires IsCanonicalDecimal(s) && s != "0"
    ensures ValueOf(s) > 0
    decreases |s|
  {
    var front := s[..|s| - 1];
    if front != "" { Positive(front); }
  }

  /** A canonical decimal is the text of its value. */
  lemma {:induction false} DecimalOfValue(s: string)
    requires IsCanonicalDecimal(s)
    ensures Decimal(ValueOf(s)) == s
    decreases |s|
  {
    var front, last := s[..|s| - 1], s[|s| - 1] as int - '0' as int;
    assert s == front + [Digit(last)];
    if front != "" {
      DecimalOfValue(front);
      Positive(front);
      var v := ValueOf(front);
      assert ValueOf(s) == 10 * v + last;
      hide ValueOf, IsCanonicalDecimal;
      assert (10 * v + last) / 10 == v && (10 * v + last) % 10 == last;
    }
  }

  /** `normalise_external_id`; `None` is `external_id_shape`. */
  function NormaliseId(platform: string, id: VendorId): Option<string> {
    match id
    case Text(text) => if IdShape(platform, text) then Some(text) else None
    case Number(n) => if n < 0 then None else Some(Decimal(n))
    case Unusable => None
  }

  /** The number that a canonical decimal is. */
  ghost function Decimals(text: string): Option<nat> {
    if exists n: nat :: Decimal(n) == text then var n: nat :| Decimal(n) == text; Some(n) else None
  }

  lemma StripsToItself(s: string)
    requires IsCanonicalDecimal(s)
    ensures Strip(s) == s
  {
  }

  /** A number is accepted exactly when it is not negative, and it is then the same id as a string
      exactly when that string is the canonical decimal of it; whatever is stored is stored the same
      when it is handed over again. */
  lemma SameIdIff(platform: string, n: int, text: string)
    ensures NormaliseId(platform, Number(n)).Some? <==> n >= 0
    ensures NormaliseId(platform, Text(text))
            == if Strip(text) == "" then None
               else if platform in {"defender_for_endpoint", "sentinel_one", "sysdig"} && Decimals(text).None? then None
               else Some(text)
    ensures n >= 0 ==> (NormaliseId(platform, Number(n)) == NormaliseId(platform, Text(text))
                        <==> IsCanonicalDecimal(text) && ValueOf(text) == n)
    ensures forall id :: NormaliseId(platform, id).Some? ==>
              var stored := NormaliseId(platform, id).value;
              IdShape(platform, stored) && NormaliseId(platform, Text(stored)) == Some(stored)
  {
    if IsCanonicalDecimal(text) { DecimalOfValue(text); }
    if n >= 0 {
      ValueOfDecimal(n);
      if IsCanonicalDecimal(text) {
        DecimalOfValue(text);
        StripsToItself(text);
      }
    }
    forall id | NormaliseId(platform, id).Some? ensures IdShape(platform, NormaliseId(platform, id).value) {
      if id.Number? { StripsToItself(Decimal(id.number)); }
    }
  }

  /** What `DeploymentState.from_file` has checked of every entry of a shard it returns. */
  predicate ValidEntry(k: Key, id: string) {
    k.platform in STATE_PLATFORMS && k.tenant != "" && Strip(k.tenant) == k.tenant && IdShape(k.platform, id)
  }

  ghost predicate ValidBindings(b: Bindings) {
    forall k :: k in b ==> ValidEntry(k, b[k])
  }

  datatype SetResult = Stored(id: string) | UnknownPlatform | BlankTenant | BadId

  class Shard {
    var platforms: Platforms
    var extra: map<string, string>

    /** `set` and `remove` leave no platform without a tenant, so the shard is empty exactly when it binds nothing. */
    ghost predicate Valid() reads this {
      forall p :: p in platforms ==> platforms[p] != map[]
    }

    constructor (platforms: Platforms, extra: map<string, string>)
      ensures this.platforms == platforms && this.extra == extra
    {
      this.platforms, this.extra := platforms, extra;
    }

    method Bind(platform: string, tenantName: string, id: VendorId) returns (r: SetResult)
      requires Valid()
      modifies this`platforms
      ensures Valid()
      ensures r.Stored?
              <==> && platform in {"crowdstrike", "defender_for_endpoint", "sentinel_one", "sysdig"}
                   && Strip(tenantName) != "" && NormaliseId(platform, id).Some?
      ensures r.Stored? ==>
                && Some(r.id) == NormaliseId(platform, id)
                && BindingsOf(platforms) == old(BindingsOf(platforms))[Key(platform, Strip(tenantName)) := r.id]
      ensures !r.Stored? ==> platforms == old(platforms)
    {
      if platform !in STATE_PLATFORMS { return UnknownPlatform; }
      var tenant := Strip(tenantName);
      if tenant == "" { return BlankTenant; }
      var stored := NormaliseId(platform, id);
      if stored.None? { return BadId; }
      WithTenantBinds(platforms, platform, tenant, stored.value);
      platforms := WithTenant(platforms, platform, tenant, stored.value);
      assert tenant in platforms[platform];
      return Stored(stored.value);
    }

    method Unbind(platform: string, tenant: string) returns (removed: Option<string>)
      requires Valid()
      modifies this`platforms
      ensures Valid()
      ensures removed == Get(old(BindingsOf(platforms)), Key(platform, Strip(tenant)))
      ensures BindingsOf(platforms) == old(BindingsOf(platforms)) - {Key(platform, Strip(tenant))}
    {
      BindingsAt(platforms, platform, Strip(tenant));
      if platform !in platforms { return None; }
      var key := Strip(tenant);
      removed := Get(platforms[platform], key);
      WithoutTenantUnbinds(platforms, platform, key);
      platforms := WithoutTenant(platforms, platform, key);
    }
  }

  lemma EmptyShard(platforms: Platforms)
    requires forall p :: p in platforms ==> platforms[p] != map[]
    ensures platforms == map[] <==> BindingsOf(platforms) == map[]
  {
    if platforms != map[] {
      var p :| p in platforms;
      var t :| t in platforms[p];
      assert Key(p, t) in BindingsOf(platforms);
    }
  }

  // ---------- One shard ----------

  datatype Slot = Slot(path: string, platform: string, tenant: string)

  /** One `deployment_state_conflict` line. */
  datatype Conflict = Conflict(slot: Slot, kept: Option<string>, theirs: Option<string>)

  ghost predicate Enumerates<T>(order: seq<T>, keys: set<T>) {
    (set k | k in order) == keys && forall i, j :: 0 <= i < j < |order| ==> order[i] != order[j]
  }

  predicate ConflictAt(base: Bindings, ours: Bindings, tip: Bindings, k: Key) {
    Conflicting(Get(base, k), Get(ours, k), Get(tip, k))
  }

  function LineFor(path: string, ours: Bindings, tip: Bindings, k: Key): Conflict {
    Conflict(Slot(path, k.platform, k.tenant), Get(ours, k), Get(tip, k))
  }

  /** Carrying one changed key over to the tip's bindings. */
  function StepKey(base: Bindings, ours: Bindings, tip: Bindings, k: Key): Bindings {
    if Get(base, k) == Get(ours, k) then tip
    else if k in ours then tip[k := ours[k]]
    else tip - {k}
  }

  /** The tip's bindings after the first `n` keys of `order`. */
  function Applied(base: Bindings, ours: Bindings, tip: Bindings, order: seq<Key>, n: nat): Bindings
    requires n <= |order|
  {
    if n == 0 then tip else StepKey(base, ours, Applied(base, ours, tip, order, n - 1), order[n - 1])
  }

  /** The conflict line of one key, if it has one. */
  function LinesAt(path: string, base: Bindings, ours: Bindings, tip: Bindings, k: Key): seq<Conflict> {
    if ConflictAt(base, ours, tip, k) then [LineFor(path, ours, tip, k)] else []
  }

  /** The conflict lines of the first `n` keys of `order`, in that order. */
  function Lines(path: string, base: Bindings, ours: Bindings, tip: Bindings, order: seq<Key>, n: nat): seq<Conflict>
    requires n <= |order|
  {
    if n == 0 then []
    else Lines(path, base, ours, tip, order, n - 1) + LinesAt(path, base, ours, tip, order[n - 1])
  }

  lemma {:induction false} AppliedAt(base: Bindings, ours: Bindings, tip: Bindings, order: seq<Key>, n: nat, k: Key)
    requires n <= |order|
    ensures Get(Applied(base, ours, tip, order, n), k)
            == if k in order[..n] then Pick(Get(base, k), Get(ours, k), Get(tip, k)) else Get(tip, k)
  {
    if n > 0 {
      assert order[..n] == order[..n - 1] + [order[n - 1]];
      AppliedAt(base, ours, tip, order, n - 1, k);
    }
  }

  lemma AppliedIsMerge(base: Bindings, ours: Bindings, tip: Bindings, order: seq<Key>)
    requires Enumerates(order, base.Keys + ours.Keys)
    ensures Applied(base, ours, tip, order, |order|) == Merge3(base, ours, tip)
  {
    forall k ensures Get(Applied(base, ours, tip, order, |order|), k) == Get(Merge3(base, ours, tip), k) {
      AppliedAt(base, ours, tip, order, |order|, k);
      MergeAt(base, ours, tip, k);
      assert order[..|order|] == order;
      assert k in order <==> k in base.Keys + ours.Keys;
    }
    SameLookups(Applied(base, ours, tip, order, |order|), Merge3(base, ours, tip));
  }

  lemma {:induction false} LinesMember(path: string, base: Bindings, ours: Bindings, tip: Bindings, order: seq<Key>,
                                       n: nat, c: Conflict)
    requires n <= |order|
    ensures c in Lines(path, base, ours, tip, order, n)
            <==> exists k :: k in order[..n] && ConflictAt(base, ours, tip, k) && c == LineFor(path, ours, tip, k)
  {
    if n > 0 {
      assert order[..n] == order[..n - 1] + [order[n - 1]];
      LinesMember(path, base, ours, tip, order, n - 1, c);
    }
  }

  /** The body of the inner loop: `tipBindings` is what the tip held before the loop. */
  method ReplayKey(path: string, base: Bindings, ours: Bindings, tipBindings: Bindings, tip: Shard, key: Key)
    returns (said: seq<Conflict>)
    requires tip.Valid()
    requires ValidBindings(base) && ValidBindings(ours)
    requires key in base || key in ours
    modifies tip`platforms
    ensures tip.Valid()
    ensures BindingsOf(tip.platforms) == StepKey(base, ours, old(BindingsOf(tip.platforms)), key)
    ensures said == LinesAt(path, base, ours, tipBindings, key)
  {
    assert Strip(key.tenant) == key.tenant;
    said := [];
    if Get(base, key) == Get(ours, key) { return; }
    var theirs := Get(tipBindings, key);
    if theirs != Get(base, key) && theirs != Get(ours, key) {
      said := [LineFor(path, ours, tipBindings, key)];
    }
    if key in ours {
      var _ := tip.Bind(key.platform, key.tenant, Text(ours[key]));
    } else {
      var _ := tip.Unbind(key.platform, key.tenant);
    }
  }

  /** The inner loop of `replay`, over the sorted keys of one changed shard. */
  method ReplayKeys(path: string, base: Bindings, ours: Bindings, tip: Shard, order: seq<Key>)
    returns (conflicts: seq<Conflict>)
    requires tip.Valid()
    requires ValidBindings(base) && ValidBindings(ours)
    requires forall i :: 0 <= i < |order| ==> order[i] in base || order[i] in ours
    modifies tip`platforms
    ensures tip.Valid()
    ensures BindingsOf(tip.platforms) == Applied(base, ours, old(BindingsOf(tip.platforms)), order, |order|)
    ensures conflicts == Lines(path, base, ours, old(BindingsOf(tip.platforms)), order, |order|)
  {
    hide StepKey, LinesAt, BindingsOf;
    conflicts := [];
    var tipBindings := BindingsOf(tip.platforms);
    var i := 0;
    while i < |order|
      invariant 0 <= i <= |order|
      invariant tip.Valid()
      invariant BindingsOf(tip.platforms) == Applied(base, ours, tipBindings, order, i)
      invariant conflicts == Lines(path, base, ours, tipBindings, order, i)
    {
      var said := ReplayKey(path, base, ours, tipBindings, tip, order[i]);
      conflicts := conflicts + said;
      i := i + 1;
    }
  }

  /** The body of `replay`'s outer loop, for one changed shard: `order` is the sorted union of the keys. */
  method ReplayShard(path: string, base: Bindings, ours: Bindings, oursExtra: map<string, string>, tip: Shard,
                     order: seq<Key>)
    returns (conflicts: seq<Conflict>)
    requires tip.Valid()
    requires ValidBindings(base) && ValidBindings(ours)
    requires Enumerates(order, base.Keys + ours.Keys)
    modifies tip
    ensures tip.Valid()
    ensures BindingsOf(tip.platforms) == Merge3(base, ours, old(BindingsOf(tip.platforms)))
    ensures tip.extra == oursExtra + old(tip.extra)
    ensures conflicts == Lines(path, base, ours, old(BindingsOf(tip.platforms)), order, |order|)
  {
    AppliedIsMerge(base, ours, BindingsOf(tip.platforms), order);
    forall i | 0 <= i < |order| ensures order[i] in base || order[i] in ours {
      assert order[i] in base.Keys + ours.Keys;
    }
    conflicts := ReplayKeys(path, base, ours, tip, order);
    tip.extra := oursExtra + tip.extra;
  }

  // ---------- Every changed shard ----------

  /** A shard file at one commit: `Broken` is what `DeploymentState.from_file` refuses. */
  datatype Blob = Broken | Parsed(platforms: Platforms, extra: map<string, string>)

  type Files = map<string, Blob>

  ghost predicate Checked(b: Blob) {
    b.Parsed? ==> ValidBindings(BindingsOf(b.platforms)) && forall p :: p in b.platforms ==> b.platforms[p] != map[]
  }

  ghost predicate AllChecked(files: Files) {
    forall path :: path in files ==> Checked(files[path])
  }

  function FileBindings(files: Files, path: string): Bindings {
    if path in files && files[path].Parsed? then BindingsOf(files[path].platforms) else map[]
  }

  function Bound(files: Files, s: Slot): Option<string> {
    Get(FileBindings(files, s.path), Key(s.platform, s.tenant))
  }

  predicate IsJson(path: string) {
    |path| >= 5 && path[|path| - 5..] == ".json"
  }

  lemma JsonPaths(path: string)
    ensures IsJson(path) <==> exists stem :: path == stem + ".json"
  {
    if IsJson(path) { assert path == path[..|path| - 5] + ".json"; }
  }

  predicate BrokenAt(files: Files, path: string) {
    path in files && files[path].Broken?
  }

  predicate BrokenAnywhere(parent: Files, ours: Files, tip: Files, path: string) {
    BrokenAt(parent, path) || BrokenAt(ours, path) || BrokenAt(tip, path)
  }

  ghost predicate IsConflict(parent: Files, ours: Files, tip: Files, c: Conflict) {
    Conflicting(Bound(parent, c.slot), Bound(ours, c.slot), Bound(tip, c.slot))
    && c.kept == Bound(ours, c.slot) && c.theirs == Bound(tip, c.slot)
  }

  /** `sorted(keys)`: the proofs hold for every order. */
  method Ordered(keys: set<Key>) returns (order: seq<Key>)
    ensures Enumerates(order, keys)
  {
    order := [];
    var rest := keys;
    while rest != {}
      invariant rest <= keys && (set k | k in order) == keys - rest
      invariant forall i, j :: 0 <= i < j < |order| ==> order[i] != order[j]
      decreases rest
    {
      var k :| k in rest;
      assert k !in (set x | x in order);
      assert (set x | x in order + [k]) == (set x | x in order) + {k};
      order, rest := order + [k], rest - {k};
    }
  }

  lemma ShardLines(path: string, parent: Files, ours: Files, tip: Files, order: seq<Key>, c: Conflict)
    requires Enumerates(order, FileBindings(parent, path).Keys + FileBindings(ours, path).Keys)
    ensures c in Lines(path, FileBindings(parent, path), FileBindings(ours, path), FileBindings(tip, path), order,
                       |order|)
            <==> c.slot.path == path && IsConflict(parent, ours, tip, c)
  {
    var b, o, t := FileBindings(parent, path), FileBindings(ours, path), FileBindings(tip, path);
    LinesMember(path, b, o, t, order, |order|, c);
    assert order[..|order|] == order;
    var k := Key(c.slot.platform, c.slot.tenant);
    if c.slot.path == path && IsConflict(parent, ours, tip, c) {
      assert k in b.Keys + o.Keys;
      assert k in order && ConflictAt(b, o, t, k) && c == LineFor(path, o, t, k);
    }
  }

  /** The keys of a shard file that are not its own. */
  function ExtraOf(files: Files, path: string): map<string, string> {
    if path in files && files[path].Parsed? then files[path].extra else map[]
  }

  /** The tip's shard at `path` after the replay has been there: the merged bindings, and the
      commit's other keys where the tip has none of that name. */
  ghost predicate Carried(parent: Files, ours: Files, tip: Files, now: Files, path: string) {
    && !BrokenAnywhere(parent, ours, tip, path)
    && (path in now ==> ExtraOf(now, path) == ExtraOf(ours, path) + ExtraOf(tip, path))
    && FileBindings(now, path) == Merge3(FileBindings(parent, path), FileBindings(ours, path), FileBindings(tip, path))
  }

  /** The replay has been to exactly the JSON files among `paths`. */
  ghost predicate Reached(parent: Files, ours: Files, tip: Files, now: Files, paths: seq<string>) {
    forall p :: if p in paths && IsJson(p) then Carried(parent, ours, tip, now, p) else Get(now, p) == Get(tip, p)
  }

  ghost predicate SaidFor(parent: Files, ours: Files, tip: Files, paths: seq<string>, conflicts: seq<Conflict>) {
    forall c :: c in conflicts <==> c.slot.path in paths && IsJson(c.slot.path) && IsConflict(parent, ours, tip, c)
  }

  /** `result.written` and `result.removed`: the shards the replay left, and those it left without a binding. */
  ghost predicate Reported(now: Files, paths: seq<string>, written: seq<string>, removed: seq<string>) {
    && (forall p :: p in written <==> p in paths && IsJson(p) && p in now)
    && (forall p :: p in removed <==> p in paths && IsJson(p) && p !in now)
  }

  lemma NothingReached(parent: Files, ours: Files, tip: Files)
    ensures Reached(parent, ours, tip, tip, []) && SaidFor(parent, ours, tip, [], []) && Reported(tip, [], [], [])
  {
  }

  lemma ReachedAt(parent: Files, ours: Files, tip: Files, now: Files, paths: seq<string>, path: string)
    requires Reached(parent, ours, tip, now, paths)
    ensures path !in paths || !IsJson(path) ==> Get(now, path) == Get(tip, path)
    ensures path in paths && IsJson(path)
            ==> !BrokenAnywhere(parent, ours, tip, path) && Carried(parent, ours, tip, now, path)
  {
  }

  lemma SkippedPath(parent: Files, ours: Files, tip: Files, now: Files, paths: seq<string>, path: string,
                    written: seq<string>, removed: seq<string>, conflicts: seq<Conflict>)
    requires !IsJson(path)
    requires Reached(parent, ours, tip, now, paths) && SaidFor(parent, ours, tip, paths, conflicts)
    requires Reported(now, paths, written, removed)
    ensures Reached(parent, ours, tip, now, paths + [path]) && SaidFor(parent, ours, tip, paths + [path], conflicts)
    ensures Reported(now, paths + [path], written, removed)
  {
  }

  lemma OneMoreReached(parent: Files, ours: Files, tip: Files, before: Files, now: Files, paths: seq<string>,
                       path: string, said: seq<Conflict>, conflicts: seq<Conflict>)
    requires IsJson(path) && path !in paths
    requires Reached(parent, ours, tip, before, paths) && SaidFor(parent, ours, tip, paths, conflicts)
    requires forall p :: p != path ==> Get(now, p) == Get(before, p)
    requires Carried(parent, ours, before, now, path)
    requires forall c :: c in said <==> c.slot.path == path && IsConflict(parent, ours, before, c)
    ensures Reached(parent, ours, tip, now, paths + [path])
    ensures SaidFor(parent, ours, tip, paths + [path], conflicts + said)
  {
    assert Get(before, path) == Get(tip, path);
    assert FileBindings(before, path) == FileBindings(tip, path);
    forall p
      ensures if p in paths + [path] && IsJson(p) then Carried(parent, ours, tip, now, p)
              else Get(now, p) == Get(tip, p)
    {
      if p != path { assert Get(now, p) == Get(before, p); }
    }
  }

  lemma OneMoreReported(before: Files, now: Files, paths: seq<string>, path: string, written: seq<string>,
                        removed: seq<string>)
    requires IsJson(path) && path !in paths
    requires forall p :: p != path ==> Get(now, p) == Get(before, p)
    requires Reported(before, paths, written, removed)
    ensures path in now ==> Reported(now, paths + [path], written + [path], removed)
    ensures path !in now ==> Reported(now, paths + [path], written, removed + [path])
  {
    forall p | p != path ensures p in now <==> p in before {
      assert Get(now, p) == Get(before, p);
    }
  }

  lemma UnchangedPath(parent: Files, ours: Files, changed: seq<string>, path: string)
    requires Enumerates(changed, set p | p in parent.Keys + ours.Keys && Get(parent, p) != Get(ours, p))
    requires path !in changed
    ensures FileBindings(parent, path) == FileBindings(ours, path)
  {
    assert path !in (set p | p in changed);
    var differing := set p | p in parent.Keys + ours.Keys && Get(parent, p) != Get(ours, p);
    assert path !in differing;
  }

  lemma ReachedEverywhere(parent: Files, ours: Files, tip: Files, now: Files, changed: seq<string>,
                          conflicts: seq<Conflict>)
    requires Enumerates(changed, set p | p in parent.Keys + ours.Keys && Get(parent, p) != Get(ours, p))
    requires Reached(parent, ours, tip, now, changed) && SaidFor(parent, ours, tip, changed, conflicts)
    ensures forall s: Slot | IsJson(s.path) :: Bound(now, s) == Pick(Bound(parent, s), Bound(ours, s), Bound(tip, s))
    ensures forall c: Conflict | IsJson(c.slot.path) :: c in conflicts <==> IsConflict(parent, ours, tip, c)
  {
    forall s: Slot | IsJson(s.path)
      ensures Bound(now, s) == Pick(Bound(parent, s), Bound(ours, s), Bound(tip, s))
    {
      if s.path in changed {
        assert Carried(parent, ours, tip, now, s.path);
        var key := Key(s.platform, s.tenant);
        MergeAt(FileBindings(parent, s.path), FileBindings(ours, s.path), FileBindings(tip, s.path), key);
      } else {
        UnchangedPath(parent, ours, changed, s.path);
        assert Get(now, s.path) == Get(tip, s.path);
      }
    }
    forall c: Conflict | IsJson(c.slot.path)
      ensures c in conflicts <==> IsConflict(parent, ours, tip, c)
    {
      if c.slot.path !in changed { UnchangedPath(parent, ours, changed, c.slot.path); }
    }
  }

  lemma MergeValid(base: Bindings, ours: Bindings, tip: Bindings)
    requires ValidBindings(ours) && ValidBindings(tip)
    ensures ValidBindings(Merge3(base, ours, tip))
  {
    forall k | k in Merge3(base, ours, tip) ensures ValidEntry(k, Merge3(base, ours, tip)[k]) {
      MergeAt(base, ours, tip, k);
    }
  }

  /** The working tree's shards. */
  class Checkout {
    var files: Files

    /** `save`: write the shard, or delete the file when nothing is bound. */
    method Save(path: string, shard: Shard)
      requires shard.Valid() && ValidBindings(BindingsOf(shard.platforms)) && AllChecked(files)
      modifies this
      ensures AllChecked(files)
      ensures forall p :: p != path ==> Get(files, p) == Get(old(files), p)
      ensures !BrokenAt(files, path)
      ensures path in files <==> FileBindings(files, path) != map[]
      ensures FileBindings(files, path) == BindingsOf(shard.platforms)
      ensures path in files ==> ExtraOf(files, path) == shard.extra
    {
      EmptyShard(shard.platforms);
      files := if shard.platforms == map[] then files - {path} else files[path := Parsed(shard.platforms, shard.extra)];
    }

    /** The outer loop's body: read the three versions, carry the keys over, save the shard. */
    method ReplayPath(parent: Files, ours: Files, path: string) returns (conflicts: seq<Conflict>)
      requires AllChecked(parent) && AllChecked(ours) && AllChecked(files)
      requires !BrokenAnywhere(parent, ours, files, path)
      modifies this
      ensures AllChecked(files)
      ensures forall p :: p != path ==> Get(files, p) == Get(old(files), p)
      ensures Carried(parent, ours, old(files), files, path)
      ensures forall c :: c in conflicts <==> c.slot.path == path && IsConflict(parent, ours, old(files), c)
    {
      hide Merge3, Lines, IsConflict;
      var base, own := FileBindings(parent, path), FileBindings(ours, path);
      var ownExtra := ExtraOf(ours, path);
      var Parsed(platforms, extra) := if path in files then files[path] else Parsed(map[], map[]);
      var tip := new Shard(platforms, extra);
      assert BindingsOf(tip.platforms) == FileBindings(files, path);
      MergeValid(base, own, FileBindings(files, path));
      var order := Ordered(base.Keys + own.Keys);
      conflicts := ReplayShard(path, base, own, ownExtra, tip, order);
      forall c ensures c in conflicts <==> c.slot.path == path && IsConflict(parent, ours, files, c) {
        ShardLines(path, parent, ours, files, order, c);
      }
      Save(path, tip);
    }

    /** `replay`: `changed` is what `git diff --name-only` lists between the commit's parent and the commit. */
    method Replay(parent: Files, ours: Files, changed: seq<string>)
      returns (ok: bool, written: seq<string>, removed: seq<string>, conflicts: seq<Conflict>)
      requires AllChecked(parent) && AllChecked(ours) && AllChecked(files)
      requires Enumerates(changed, set p | p in parent.Keys + ours.Keys && Get(parent, p) != Get(ours, p))
      modifies this
      // Every binding is the three-way merge of the commit's parent, the commit and the tip.
      ensures ok ==> forall s: Slot | IsJson(s.path) ::
                Bound(files, s) == Pick(Bound(parent, s), Bound(ours, s), Bound(old(files), s))
      // The lines printed are exactly the bindings the tip changed to something else.
      ensures ok ==> forall c: Conflict | IsJson(c.slot.path) ::
                c in conflicts <==> IsConflict(parent, ours, old(files), c)
      ensures ok ==> Reported(files, changed, written, removed)
      ensures ok ==> forall p :: p in changed && IsJson(p) && p in files ==>
                ExtraOf(files, p) == ExtraOf(ours, p) + ExtraOf(old(files), p)
      ensures forall p :: !(p in changed && IsJson(p)) ==> Get(files, p) == Get(old(files), p)
      // The replay fails only on a shard it cannot read.
      ensures !ok <==> exists p :: p in changed && IsJson(p) && BrokenAnywhere(parent, ours, old(files), p)
    {
      hide Merge3, IsConflict, Reached, SaidFor, Reported;
      ghost var tip := files;
      ok, written, removed, conflicts := true, [], [], [];
      var i := 0;
      NothingReached(parent, ours, tip);
      while i < |changed|
        invariant 0 <= i <= |changed|
        invariant AllChecked(files)
        invariant Reached(parent, ours, tip, files, changed[..i])
        invariant SaidFor(parent, ours, tip, changed[..i], conflicts)
        invariant Reported(files, changed[..i], written, removed)
      {
        var path := changed[i];
        ghost var before, paths := files, changed[..i];
        assert path !in paths;
        assert changed[..i + 1] == paths + [path];
        i := i + 1;
        if !IsJson(path) {
          SkippedPath(parent, ours, tip, files, paths, path, written, removed, conflicts);
        } else {
          ReachedAt(parent, ours, tip, files, paths, path);
          if BrokenAnywhere(parent, ours, files, path) {
            assert path in changed && BrokenAnywhere(parent, ours, tip, path);
            ok := false;
            break;
          }
          var said := ReplayPath(parent, ours, path);
          OneMoreReached(parent, ours, tip, before, files, paths, path, said, conflicts);
          OneMoreReported(before, files, paths, path, written, removed);
          conflicts := conflicts + said;
          if path in files { written := written + [path]; } else { removed := removed + [path]; }
        }
      }
      ghost var paths := if ok then changed else changed[..i - 1];
      if ok { assert changed[..i] == changed; }
      forall p
        ensures !(p in changed && IsJson(p)) ==> Get(files, p) == Get(tip, p)
        ensures ok && p in changed && IsJson(p) ==> !BrokenAnywhere(parent, ours, tip, p)
        ensures ok && p in changed && IsJson(p) ==> Carried(parent, ours, tip, files, p)
      {
        ReachedAt(parent, ours, tip, files, paths, p);
      }
      if ok {
        ReachedEverywhere(parent, ours, tip, files, changed, conflicts);
      }
    }
  }
}
