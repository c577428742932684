/** Git as the write-back scripts use it: commits with one parent, a branch, and trees whose
    deployment state is kept apart from every other file. */
module GitStore {
  import opened Options
  import opened ThreeWay
  import StateReplay

  type Slot = StateReplay.Slot

  /** `state` is what `.opentide/states/deployment/` binds; `rules` is every other file. */
  datatype Tree = Tree(state: map<Slot, string>, rules: map<string, string>)

  /** A vendor id bound at one place. */
  datatype Bound = Bound(slot: Slot, id: string)

  /** `named` are the bindings whose loss the job that made this commit has printed in a conflict line. */
  datatype Commit = Commit(parent: nat, tree: Tree, named: set<Bound>)

  type Store = seq<Commit>

  ghost predicate ValidStore(store: Store) {
    store != [] && store[0].parent == 0 && forall i :: 0 < i < |store| ==> store[i].parent < i
  }

  predicate Has(t: Tree, m: Bound) {
    Get(t.state, m.slot) == Some(m.id)
  }

  predicate IsAncestor(store: Store, a: nat, b: nat)
    requires ValidStore(store) && b < |store|
  {
    a == b || (b > 0 && IsAncestor(store, a, store[b].parent))
  }

  lemma AncestorBounds(store: Store, a: nat, b: nat)
    requires ValidStore(store) && b < |store| && IsAncestor(store, a, b)
    ensures a <= b
  {
  }

  lemma {:induction false} AncestorTransitive(store: Store, a: nat, b: nat, c: nat)
    requires ValidStore(store) && c < |store| && b < |store|
    requires IsAncestor(store, a, b) && IsAncestor(store, b, c)
    ensures IsAncestor(store, a, c)
  {
    if b != c { AncestorTransitive(store, a, b, store[c].parent); }
  }

  lemma {:induction false} AncestorInLongerStore(store: Store, longer: Store, a: nat, b: nat)
    requires ValidStore(store) && ValidStore(longer) && store <= longer && b < |store|
    ensures IsAncestor(store, a, b) == IsAncestor(longer, a, b)
  {
    if a != b && b > 0 { AncestorInLongerStore(store, longer, a, store[b].parent); }
  }

  /** One history is a line. */
  lemma {:induction false} AncestorsInLine(store: Store, a: nat, b: nat, c: nat)
    requires ValidStore(store) && c < |store| && a < |store| && b < |store|
    requires IsAncestor(store, a, c) && IsAncestor(store, b, c)
    ensures IsAncestor(store, a, b) || IsAncestor(store, b, a)
  {
    if a != c && b != c { AncestorsInLine(store, a, b, store[c].parent); }
  }

  /** Going from `a` to `b`, every binding that is gone or replaced is in `excused`. */
  ghost predicate Lossless(a: Tree, b: Tree, excused: set<Bound>) {
    forall m: Bound :: Has(a, m) ==> Has(b, m) || m in excused
  }

  lemma LosslessTransitive(a: Tree, b: Tree, c: Tree, excused: set<Bound>)
    requires Lossless(a, b, excused) && Lossless(b, c, excused)
    ensures Lossless(a, c, excused)
  {
  }

  /** No commit loses a binding outside `excused`, save those it has named itself. */
  ghost predicate CommitsLossless(store: Store, excused: set<Bound>)
    requires ValidStore(store)
  {
    forall i :: 0 <= i < |store| ==> Lossless(store[store[i].parent].tree, store[i].tree, excused + store[i].named)
  }

  lemma MoreExcused(store: Store, excused: set<Bound>, more: set<Bound>)
    requires ValidStore(store) && CommitsLossless(store, excused) && excused <= more
    ensures CommitsLossless(store, more)
  {
    forall i | 0 <= i < |store|
      ensures Lossless(store[store[i].parent].tree, store[i].tree, more + store[i].named)
    {
      assert Lossless(store[store[i].parent].tree, store[i].tree, excused + store[i].named);
    }
  }

  lemma {:induction false} HistoryLossless(store: Store, excused: set<Bound>, a: nat, b: nat)
    requires ValidStore(store) && b < |store| && IsAncestor(store, a, b)
    requires CommitsLossless(store, excused)
    requires forall i :: 0 <= i < |store| && IsAncestor(store, i, b) ==> store[i].named <= excused
    ensures a <= b && Lossless(store[a].tree, store[b].tree, excused)
  {
    if a != b {
      var p := store[b].parent;
      forall i | 0 <= i < |store| && IsAncestor(store, i, p) ensures store[i].named <= excused {
        AncestorTransitive(store, i, p, b);
      }
      HistoryLossless(store, excused, a, p);
      assert IsAncestor(store, b, b) && excused + store[b].named == excused;
      LosslessTransitive(store[a].tree, store[p].tree, store[b].tree, excused);
    }
  }

  /** What `git rebase --onto tip parent` leaves when it applies. */
  function MergeTrees(base: Tree, ours: Tree, tip: Tree): Tree {
    Tree(Merge3(base.state, ours.state, tip.state), Merge3(base.rules, ours.rules, tip.rules))
  }

  /** Nothing the commit changed was changed to something else on the tip. A rebase may stop even
      then (adjacent lines); one that does not stop has found no such entry. */
  predicate Clean(base: Tree, ours: Tree, tip: Tree) {
    && (forall s | s in base.state.Keys + ours.state.Keys ::
          !Conflicting(Get(base.state, s), Get(ours.state, s), Get(tip.state, s)))
    && (forall f | f in base.rules.Keys + ours.rules.Keys ::
          !Conflicting(Get(base.rules, f), Get(ours.rules, f), Get(tip.rules, f)))
  }

  /** Going from `base` to `ours`, every entry that changes is on the tip as it was or as it became. */
  ghost predicate Agrees<K(!new), V>(base: map<K, V>, ours: map<K, V>, tip: map<K, V>) {
    forall k :: Get(ours, k) != Get(base, k) ==> Get(tip, k) == Get(base, k) || Get(tip, k) == Get(ours, k)
  }

  lemma CleanIff(base: Tree, ours: Tree, tip: Tree)
    ensures Clean(base, ours, tip)
            <==> Agrees(base.state, ours.state, tip.state) && Agrees(base.rules, ours.rules, tip.rules)
  {
    if Clean(base, ours, tip) {
      forall s | Get(ours.state, s) != Get(base.state, s)
        ensures Get(tip.state, s) == Get(base.state, s) || Get(tip.state, s) == Get(ours.state, s)
      {
        assert s in base.state.Keys + ours.state.Keys;
      }
      forall f | Get(ours.rules, f) != Get(base.rules, f)
        ensures Get(tip.rules, f) == Get(base.rules, f) || Get(tip.rules, f) == Get(ours.rules, f)
      {
        assert f in base.rules.Keys + ours.rules.Keys;
      }
    }
  }
}
