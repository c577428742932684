/** What holds of every behaviour of the write-back: any interleaving of any number of runs. */
module WriteBackTheorems {
  import opened Options
  import opened ThreeWay
  import opened GitStore
  import opened WriteBack
  import opened WriteBackSafety
  import opened WriteBackSteps

  // ---------- Behaviours ----------

  ghost predicate Initial(w: World) {
    && |w.store| == 1 && w.store[0].parent == 0 && w.store[0].named == {} && w.branch == 0
    && w.runs == map[] && w.ledger == Ledger({}, {}, {}, {}, {})
    && w.issued == w.store[0].tree.state.Values
  }

  ghost predicate Behaviour(ws: seq<World>, steps: seq<Step>) {
    && |ws| == |steps| + 1 && Initial(ws[0])
    && forall i :: 0 <= i < |steps| ==> Ok(ws[i]) && Enabled(ws[i], steps[i]) && ws[i + 1] == Next(ws[i], steps[i])
  }

  lemma {:induction false} Safe(ws: seq<World>, steps: seq<Step>, i: nat)
    requires Behaviour(ws, steps) && i < |ws|
    ensures Inv(ws[i])
  {
    if i > 0 {
      Safe(ws, steps, i - 1);
      StepKeeps(ws[i - 1], steps[i - 1]);
    }
  }

  // ---------- Fresh ids ----------

  function Records(l: Ledger): set<Bound> { Excused(l) + l.offered }

  ghost predicate KnownTree(t: Tree, issued: set<string>) {
    forall m: Bound :: Has(t, m) ==> m.id in issued
  }

  ghost predicate KnownSet(bounds: set<Bound>, issued: set<string>) {
    forall m :: m in bounds ==> m.id in issued
  }

  ghost predicate KnownStore(store: Store, issued: set<string>) {
    forall c :: 0 <= c < |store| ==> KnownTree(store[c].tree, issued) && KnownSet(store[c].named, issued)
  }

  ghost predicate KnownRun(run: Run, issued: set<string>) {
    KnownTree(run.work, issued) && KnownSet(run.made, issued)
  }

  /** Every id written down anywhere has been issued. */
  ghost predicate Known(w: World) {
    && KnownStore(w.store, w.issued) && KnownSet(Records(w.ledger), w.issued)
    && forall r :: r in w.runs ==> KnownRun(w.runs[r], w.issued)
  }

  lemma MergedKnown(base: map<Slot, string>, ours: Tree, tip: Tree, tree: Tree, issued: set<string>)
    requires KnownTree(ours, issued) && KnownTree(tip, issued) && tree.state == Merge3(base, ours.state, tip.state)
    ensures KnownTree(tree, issued)
  {
    forall m: Bound | Has(tree, m) ensures m.id in issued {
      MergeAt(base, ours.state, tip.state, m.slot);
      assert Has(ours, m) || Has(tip, m);
    }
  }

  lemma LostKnown(a: Tree, b: Tree, issued: set<string>)
    requires KnownTree(a, issued)
    ensures KnownSet(Lost(a, b), issued)
  {
    forall m | m in Lost(a, b) ensures m.id in issued { assert Has(a, m); }
  }

  lemma NamedKnown(a: Tree, b: Tree, tip: Tree, issued: set<string>)
    requires KnownTree(tip, issued)
    ensures KnownSet(Named(a, b, tip), issued)
  {
    forall m | m in Named(a, b, tip) ensures m.id in issued { assert Has(tip, m); }
  }

  lemma MoreKnown(w: World, issued: set<string>)
    requires Known(w) && w.issued <= issued
    ensures KnownStore(w.store, issued) && KnownSet(Records(w.ledger), issued)
    ensures forall r :: r in w.runs ==> KnownRun(w.runs[r], issued)
  {
    forall c | 0 <= c < |w.store| ensures KnownTree(w.store[c].tree, issued) && KnownSet(w.store[c].named, issued) {
      assert KnownTree(w.store[c].tree, w.issued);
    }
    forall r | r in w.runs ensures KnownRun(w.runs[r], issued) { assert KnownRun(w.runs[r], w.issued); }
  }

  lemma TrapKnown(w: World, r: nat, run: Run, code: nat)
    requires ValidStore(w.store) && run.stateCommit < |w.store| && Known(w) && KnownRun(run, w.issued)
    ensures Known(Trap(w, r, run, code))
  {
    LostKnown(w.store[run.stateCommit].tree, Parent(w.store, run.stateCommit), w.issued);
  }

  lemma LandingKnown(w: World, head: nat)
    requires head < |w.store| && Known(w)
    ensures Known(Landing(w, head))
  {
    assert KnownSet(w.store[head].named, w.issued);
  }

  lemma PushKnown(w: World, r: nat, run: Run, answer: Answer)
    requires Ok(w) && Known(w) && r in w.runs && run == w.runs[r] && Ready(w, run, Push(answer))
    ensures Known(DoPush(w, r, run, answer))
  {
    hide KnownTree, KnownSet, KnownStore, IsAncestor, Lost, Landing;
    LandingKnown(w, run.head);
    SameRecords(w, run.head);
    var pushed := run.(pushes := run.pushes + 1);
    TrapKnown(w, r, pushed, 1);
    TrapKnown(Landing(w, run.head), r, pushed, 1);
  }

  lemma SameRecords(w: World, head: nat)
    requires head < |w.store|
    ensures var l := Landing(w, head); l.store == w.store && l.runs == w.runs && l.issued == w.issued
  {
  }

  lemma LoopKnown(w: World, r: nat, run: Run, action: Action)
    requires Ok(w) && Known(w) && r in w.runs && run == w.runs[r] && Ready(w, run, action) && InLoop(run.phase)
    ensures Known(DoAct(w, r, run, action))
  {
    hide Lost, Named, Merge3, IsAncestor, Clean, KnownTree;
    match action {
      case Push(answer) => PushKnown(w, r, run, answer);
      case Fetch =>
      case StopRebase =>
      case Rebase =>
        var base, ours, tip := Parent(w.store, run.head), w.store[run.head].tree, w.store[run.phase.tip].tree;
        MergedKnown(base.state, ours, tip, MergeTrees(base, ours, tip), w.issued);
      case Replay =>
        var base, ours := Parent(w.store, run.stateCommit), w.store[run.stateCommit].tree;
        var tip := w.store[run.phase.tip].tree;
        MergedKnown(base.state, ours, tip, Replayed(base, ours, tip), w.issued);
        NamedKnown(base, ours, tip, w.issued);
      case Exit(code) => TrapKnown(w, r, run, code);
    }
  }

  lemma DeployKnown(w: World, r: nat, run: Run, action: Action)
    requires Ok(w) && Known(w) && r in w.runs && run == w.runs[r] && Ready(w, run, action) && run.phase.Deploying?
    ensures Known(DoAct(w, r, run, action))
  {
    var v := DoAct(w, r, run, action);
    MoreKnown(w, v.issued);
    match action {
      case Create(slot, id) =>
        forall m: Bound | Has(v.runs[r].work, m) ensures m.id in v.issued { assert m.slot == slot || Has(run.work, m); }
      case Delete(slot) =>
        assert Has(run.work, Bound(slot, run.work.state[slot]));
        forall m: Bound | Has(v.runs[r].work, m) ensures m.id in v.issued { assert Has(run.work, m); }
      case Edit(_, _) =>
        forall m: Bound | Has(v.runs[r].work, m) ensures m.id in v.issued { assert Has(run.work, m); }
      case Commit(rulesValid, _) =>
        var staged := Staged(run, w.store[run.base].tree, rulesValid);
        forall m: Bound | Has(staged, m) ensures m.id in v.issued { assert Has(run.work, m); }
      case Abort =>
    }
  }

  lemma StartKnown(w: World, r: nat, trigger: nat, folder: string)
    requires Ok(w) && Known(w) && Enabled(w, Start(r, trigger, folder))
    ensures Known(DoStart(w, r, trigger, folder))
  {
    var tree := Overlay(w, trigger);
    forall m: Bound | Has(tree, m) ensures m.id in w.issued { assert Has(w.store[w.branch].tree, m); }
  }

  lemma MergeKnown(w: World, tree: Tree)
    requires Ok(w) && Known(w)
    ensures Known(DoMerge(w, tree))
  {
    MoreKnown(w, w.issued + tree.state.Values);
    LostKnown(w.store[w.branch].tree, tree, w.issued + tree.state.Values);
    forall m: Bound | Has(tree, m) ensures m.id in tree.state.Values { assert m.slot in tree.state; }
  }

  lemma {:induction false} AllKnown(ws: seq<World>, steps: seq<Step>, i: nat)
    requires Behaviour(ws, steps) && i < |ws|
    ensures Known(ws[i])
  {
    hide Known, DoAct, DoStart, DoMerge;
    if i == 0 {
      InitiallyKnown(ws[0]);
    } else {
      AllKnown(ws, steps, i - 1);
      match steps[i - 1] {
        case Start(r, trigger, folder) => StartKnown(ws[i - 1], r, trigger, folder);
        case Merge(tree) => MergeKnown(ws[i - 1], tree);
        case Act(r, action) =>
          if ws[i - 1].runs[r].phase.Deploying? { DeployKnown(ws[i - 1], r, ws[i - 1].runs[r], action); }
          else { LoopKnown(ws[i - 1], r, ws[i - 1].runs[r], action); }
      }
    }
  }

  lemma InitiallyKnown(w: World)
    requires Initial(w)
    ensures Known(w)
  {
    forall m: Bound | Has(w.store[0].tree, m) ensures m.id in w.issued { assert m.slot in w.store[0].tree.state; }
  }

  // ---------- Time ----------

  /** What a run started from, and what it has made so far. */
  ghost predicate SameRun(a: Run, b: Run) {
    a.origin == b.origin && a.base == b.base && a.folder == b.folder && a.made <= b.made
  }

  /** Steps only add: commits, records, what a run made; and the branch moves to descendants. */
  ghost predicate Later(w: World, v: World)
    requires Ok(w) && Ok(v)
  {
    && w.store <= v.store && IsAncestor(v.store, w.branch, v.branch) && w.ledger.logged <= v.ledger.logged
    && forall r :: r in w.runs ==> r in v.runs && SameRun(w.runs[r], v.runs[r])
  }

  lemma StepLater(w: World, step: Step)
    requires Ok(w) && Enabled(w, step) && Ok(Next(w, step))
    ensures Later(w, Next(w, step))
  {
    var v := Next(w, step);
    if step.Act? {
      ActLater(w, step.r, step.action);
    } else {
      AncestorInLongerStore(w.store, v.store, w.branch, w.branch);
      assert step.Merge? ==> v.store[v.branch].parent == w.branch;
    }
  }

  lemma ActLater(w: World, r: nat, action: Action)
    requires Ok(w) && r in w.runs && Ready(w, w.runs[r], action) && Ok(DoAct(w, r, w.runs[r], action))
    ensures Later(w, DoAct(w, r, w.runs[r], action))
  {
    hide DoCommit, DoPush, DoRebase, DoReplay, Trap, Clean, IsAncestor;
    match action {
      case Commit(_, _) => CommitLater(w, r, action);
      case Push(_) => PushLater(w, r, action);
      case Rebase => ReplayLater(w, r, action);
      case Replay => ReplayLater(w, r, action);
      case _ => QuietLater(w, r, action);
    }
  }

  lemma QuietLater(w: World, r: nat, action: Action)
    requires Ok(w) && r in w.runs && Ready(w, w.runs[r], action) && Ok(DoAct(w, r, w.runs[r], action))
    requires !action.Commit? && !action.Push? && !action.Rebase? && !action.Replay?
    ensures Later(w, DoAct(w, r, w.runs[r], action))
  {
    hide Lost, Excused, IsAncestor, ScriptStatus;
    SameBranch(w, DoAct(w, r, w.runs[r], action));
  }

  lemma CommitLater(w: World, r: nat, action: Action)
    requires Ok(w) && r in w.runs && Ready(w, w.runs[r], action) && Ok(DoAct(w, r, w.runs[r], action)) && action.Commit?
    ensures Later(w, DoAct(w, r, w.runs[r], action))
  {
    hide Staged, IsAncestor, ScriptStatus;
    SameBranch(w, DoAct(w, r, w.runs[r], action));
  }

  lemma PushLater(w: World, r: nat, action: Action)
    requires Ok(w) && r in w.runs && Ready(w, w.runs[r], action) && Ok(DoAct(w, r, w.runs[r], action)) && action.Push?
    ensures Later(w, DoAct(w, r, w.runs[r], action))
  {
    hide Lost, Excused, IsAncestor, ScriptStatus;
    if action.answer == Rejected { SameBranch(w, DoAct(w, r, w.runs[r], action)); }
  }

  lemma ReplayLater(w: World, r: nat, action: Action)
    requires Ok(w) && r in w.runs && Ready(w, w.runs[r], action) && Ok(DoAct(w, r, w.runs[r], action))
    requires action.Rebase? || action.Replay?
    ensures Later(w, DoAct(w, r, w.runs[r], action))
  {
    hide Named, MergeTrees, Replayed, Clean, IsAncestor, ScriptStatus;
    SameBranch(w, DoAct(w, r, w.runs[r], action));
  }

  lemma SameBranch(w: World, v: World)
    requires Ok(w) && Ok(v) && w.store <= v.store && v.branch == w.branch
    ensures IsAncestor(v.store, w.branch, v.branch)
  {
    AncestorInLongerStore(w.store, v.store, w.branch, w.branch);
  }

  lemma {:induction false} AllLater(ws: seq<World>, steps: seq<Step>, i: nat, j: nat)
    requires Behaviour(ws, steps) && i <= j < |ws|
    ensures Ok(ws[i]) && Ok(ws[j]) && Later(ws[i], ws[j])
    decreases j
  {
    hide Next, Enabled;
    Safe(ws, steps, i);
    Safe(ws, steps, j);
    if i < j {
      AllLater(ws, steps, i, j - 1);
      StepLater(ws[j - 1], steps[j - 1]);
      AncestorInLongerStore(ws[j - 1].store, ws[j].store, ws[i].branch, ws[j - 1].branch);
      AncestorTransitive(ws[j].store, ws[i].branch, ws[j - 1].branch, ws[j].branch);
    }
  }

  // ---------- The theorems ----------

  /** The vendor confirmed the delete, a person removed the entry, or a conflict line names it. */
  predicate OnRecord(l: Ledger, m: Bound) { m in l.deleted || m in l.byHand || m in l.named }

  /** No vendor id is lost silently. When a run whose vendor returned `id` for `slot` at step `i`
      has ended its write-back, the id is bound on the default branch, or it is on record: dropped
      by a confirmed delete, removed by a person, named in the conflict line of a job whose commit
      landed, or printed and offered to the side ref. No such record existed before the create.
      Even a run that is killed leaves the line its create logged. */
  lemma NoIdIsLost(ws: seq<World>, steps: seq<Step>, i: nat, r: nat, slot: Slot, id: string, j: nat)
    requires Behaviour(ws, steps) && i < j < |ws|
    requires steps[i] == Act(r, Create(slot, id))
    ensures r in ws[j].runs && Ok(ws[j])
    ensures ws[j].runs[r].phase.Ended? ==>
              Get(Tip(ws[j]).state, slot) == Some(id) || OnRecord(ws[j].ledger, Bound(slot, id))
              || Bound(slot, id) in ws[j].ledger.offered
    ensures !OnRecord(ws[i].ledger, Bound(slot, id)) && Bound(slot, id) !in ws[i].ledger.offered
    ensures Bound(slot, id) in ws[j].ledger.logged
  {
    hide EndedOk, LoopOk, DeployingOk;
    AllKnown(ws, steps, i);
    assert Bound(slot, id) in ws[i + 1].runs[r].made && Bound(slot, id) in ws[i + 1].ledger.logged;
    AllLater(ws, steps, i + 1, j);
    Safe(ws, steps, j);
    if ws[j].runs[r].phase.Ended? { EndedHolds(ws[j], r, Bound(slot, id)); }
  }

  lemma EndedHolds(w: World, r: nat, m: Bound)
    requires Inv(w) && r in w.runs && w.runs[r].phase.Ended? && m in w.runs[r].made
    ensures Has(Tip(w), m) || m in Excused(w.ledger) || (m in w.ledger.offered && !w.runs[r].published)
  {
  }

  /** A binding the default branch ever had is there still, or its removal is on record. */
  lemma BranchForgetsNothing(ws: seq<World>, steps: seq<Step>, i: nat, j: nat, m: Bound)
    requires Behaviour(ws, steps) && i <= j < |ws|
    ensures Ok(ws[i]) && Ok(ws[j])
    ensures Has(Tip(ws[i]), m) ==> Has(Tip(ws[j]), m) || OnRecord(ws[j].ledger, m)
  {
    AllLater(ws, steps, i, j);
    Safe(ws, steps, j);
    BranchHistory(ws[j], ws[i].branch);
    assert ws[j].store[ws[i].branch] == ws[i].store[ws[i].branch];
  }

  /** `state_published` is 1 only when the branch holds every id the run's vendor calls returned,
      save those whose removal is on record. */
  lemma PublishedMeansHeld(ws: seq<World>, steps: seq<Step>, j: nat, r: nat, m: Bound)
    requires Behaviour(ws, steps) && j < |ws| && r in ws[j].runs
    requires ws[j].runs[r].phase.Ended? && ws[j].runs[r].published && m in ws[j].runs[r].made
    ensures Ok(ws[j]) && (Has(Tip(ws[j]), m) || OnRecord(ws[j].ledger, m))
  {
    Safe(ws, steps, j);
    EndedHolds(ws[j], r, m);
  }

  /** A failed deploy's status is the script's. Status 0 means that the deploy succeeded and that
      every change the write-back may commit, to the state and to the tracked files of the rules
      folder, deletions included, has been on the branch since the overlay was taken from it. */
  lemma ExitStatus(ws: seq<World>, steps: seq<Step>, i: nat, j: nat, r: nat, trigger: nat, folder: string)
    requires Behaviour(ws, steps) && i < j < |ws| && steps[i] == Start(r, trigger, folder)
    requires r in ws[j].runs && ws[j].runs[r].phase.Ended?
    ensures Ok(ws[j])
    ensures var run := ws[j].runs[r];
            var overlay := Tree(Tip(ws[i]).state, ws[i].store[trigger].tree.rules);
            && (run.deployStatus != 0 ==> run.phase.exit == run.deployStatus)
            && (run.phase.exit == 0 ==>
                  run.deployStatus == 0 && WorkLanded(ws[j], ws[i].branch, overlay, run.work, folder))
  {
    hide WorkLanded, LoopOk, DeployingOk, Carries, AllLanded, Deliverable, CommitsLossless;
    assert ws[i + 1] == DoStart(ws[i], r, trigger, folder);
    StartIs(ws[i], r, trigger, folder);
    AllLater(ws, steps, i + 1, j);
    Safe(ws, steps, j);
    EndedStatus(ws[j], r);
    NothingToLand(ws[j], ws[i].branch, Overlay(ws[i], trigger));
    if ws[j].runs[r].phase.exit == 0 {
      DeliverableIsTheWork(ws[j], ws[i].branch, Overlay(ws[i], trigger), ws[j].runs[r]);
    }
  }

  lemma StartIs(w: World, r: nat, trigger: nat, folder: string)
    requires trigger < |w.store| && w.branch < |w.store|
    ensures var v := DoStart(w, r, trigger, folder);
            && r in v.runs && v.runs[r].origin == w.branch && v.runs[r].base < |v.store| && v.runs[r].folder == folder
            && v.store[v.runs[r].base].tree == Overlay(w, trigger)
  {
  }

  lemma NothingToLand(w: World, origin: nat, base: Tree)
    requires Ok(w)
    ensures AllLanded(w, origin, base, base)
  {
  }

  lemma EndedStatus(w: World, r: nat)
    requires Inv(w) && r in w.runs && w.runs[r].phase.Ended?
    ensures Ok(w) && w.runs[r].base < |w.store|
    ensures var run, base := w.runs[r], w.store[w.runs[r].base].tree;
            && (run.deployStatus != 0 ==> run.phase.exit == run.deployStatus)
            && (run.phase.exit == 0 ==>
                  AllLanded(w, run.origin, base, Deliverable(run, base)) || Deliverable(run, base) == base)
  {
    hide HistoryOk, AllLanded, Deliverable;
    assert EndedOk(w, w.runs[r]);
  }

  /** Never more than five pushes to the branch. */
  lemma AtMostFivePushes(ws: seq<World>, steps: seq<Step>, j: nat, r: nat)
    requires Behaviour(ws, steps) && j < |ws| && r in ws[j].runs && !ws[j].runs[r].phase.Aborted?
    ensures ws[j].runs[r].pushes <= 5
  {
    Safe(ws, steps, j);
    assert RunOk(ws[j], ws[j].runs[r]);
  }

  function StepsLeft(run: Run): int {
    5 * (PUSH_ATTEMPTS - run.attempt)
    + match run.phase case Fetching => 4 case Rebasing(_) => 3 case Replaying(_) => 2 case _ => 1
  }

  /** The push loop ends: each of the run's own steps uses up one of at most 21, whatever the others do. */
  lemma LoopTerminates(w: World, r: nat, action: Action)
    requires Ok(w) && r in w.runs && WellFormed(w.store, w.runs[r]) && Ready(w, w.runs[r], action)
    requires Inv(w) && InLoop(w.runs[r].phase)
    ensures 0 < StepsLeft(w.runs[r]) <= 21
    ensures var v := DoAct(w, r, w.runs[r], action);
            r in v.runs && (InLoop(v.runs[r].phase) ==> StepsLeft(v.runs[r]) < StepsLeft(w.runs[r]))
  {
    hide HistoryOk, CommitOk, DeployingOk, EndedOk, IsAncestor, Clean, MergeTrees, Replayed, Lost,
      Named, Landing, Excused;
    assert RunOk(w, w.runs[r]) && LoopOk(w, w.runs[r]);
    hide LoopOk;
  }
}
