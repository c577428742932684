/** The `Replay` step of the state machine is what the replay loop over shard files computes. */
module ReplayStep {
  import opened Options
  import opened ThreeWay
  import opened GitStore
  import WriteBack
  import opened StateReplay

  /** The shard files bind exactly `state`. */
  ghost predicate Holds(files: Files, state: map<Slot, string>) {
    && (forall s: Slot | IsJson(s.path) :: StateReplay.Bound(files, s) == Get(state, s))
    && (forall s: Slot :: s in state ==> IsJson(s.path))
  }

  method ReplayCommit(checkout: Checkout, parentFiles: Files, commitFiles: Files, changed: seq<string>,
                      ghost parent: Tree, ghost commit: Tree, ghost tip: Tree)
    returns (ok: bool, conflicts: seq<Conflict>)
    requires AllChecked(parentFiles) && AllChecked(commitFiles) && AllChecked(checkout.files)
    requires Enumerates(changed,
               set p | p in parentFiles.Keys + commitFiles.Keys && Get(parentFiles, p) != Get(commitFiles, p))
    requires Holds(parentFiles, parent.state) && Holds(commitFiles, commit.state) && Holds(checkout.files, tip.state)
    modifies checkout
    ensures ok ==> Holds(checkout.files, WriteBack.Replayed(parent, commit, tip).state)
    ensures ok ==> forall s: Slot, id: string | IsJson(s.path) ::
              GitStore.Bound(s, id) in WriteBack.Named(parent, commit, tip)
              <==> Conflict(s, Get(commit.state, s), Some(id)) in conflicts
  {
    hide IsJson, Holds, AllChecked, Enumerates;
    ghost var before := checkout.files;
    var written, removed;
    ok, written, removed, conflicts := checkout.Replay(parentFiles, commitFiles, changed);
    if ok {
      MergedHolds(parentFiles, commitFiles, before, checkout.files, parent, commit, tip);
      forall s: Slot, id: string | IsJson(s.path)
        ensures GitStore.Bound(s, id) in WriteBack.Named(parent, commit, tip)
                <==> Conflict(s, Get(commit.state, s), Some(id)) in conflicts
      {
        NamedIsConflict(parentFiles, commitFiles, before, parent, commit, tip, s, id);
        assert Conflict(s, Get(commit.state, s), Some(id)).slot == s;
      }
    }
  }

  lemma MergedHolds(parentFiles: Files, commitFiles: Files, before: Files, after: Files, parent: Tree, commit: Tree,
                    tip: Tree)
    requires Holds(parentFiles, parent.state) && Holds(commitFiles, commit.state) && Holds(before, tip.state)
    requires forall s: Slot | IsJson(s.path) ::
               StateReplay.Bound(after, s)
               == Pick(StateReplay.Bound(parentFiles, s), StateReplay.Bound(commitFiles, s),
                 StateReplay.Bound(before, s))
    ensures Holds(after, WriteBack.Replayed(parent, commit, tip).state)
  {
    hide IsJson, StateReplay.Bound;
    forall s: Slot | IsJson(s.path)
      ensures StateReplay.Bound(after, s) == Get(WriteBack.Replayed(parent, commit, tip).state, s)
    {
      MergeAt(parent.state, commit.state, tip.state, s);
    }
  }

  lemma NamedIsConflict(parentFiles: Files, commitFiles: Files, before: Files, parent: Tree, commit: Tree, tip: Tree,
                        s: Slot, id: string)
    requires Holds(parentFiles, parent.state) && Holds(commitFiles, commit.state) && Holds(before, tip.state)
             && IsJson(s.path)
    ensures GitStore.Bound(s, id) in WriteBack.Named(parent, commit, tip)
            <==> IsConflict(parentFiles, commitFiles, before, Conflict(s, Get(commit.state, s), Some(id)))
  {
    hide IsJson, StateReplay.Bound;
  }
}
