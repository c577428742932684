/** Every step of the write-back keeps the invariant. */
module WriteBackSteps {
  import opened Options
  import opened ThreeWay
  import opened GitStore
  import opened WriteBack
  import opened WriteBackSafety

  // ---------- Merged trees ----------

  lemma MergedHas(base: map<Slot, string>, ours: map<Slot, string>, tip: map<Slot, string>, m: Bound)
    ensures Get(ours, m.slot) == Some(m.id) && Get(base, m.slot) != Some(m.id) ==>
              Get(Merge3(base, ours, tip), m.slot) == Some(m.id)
    ensures Get(tip, m.slot) == Some(m.id) && Get(Merge3(base, ours, tip), m.slot) != Some(m.id) ==>
              Get(base, m.slot) != Get(ours, m.slot) && Get(ours, m.slot) != Some(m.id)
  {
    MergeAt(base, ours, tip, m.slot);
  }

  /** A clean rebase loses only what the commit lost. */
  lemma CleanMergeLossless(base: Tree, ours: Tree, tip: Tree, excused: set<Bound>)
    requires Clean(base, ours, tip) && Lossless(base, ours, excused)
    ensures Lossless(tip, MergeTrees(base, ours, tip), excused)
  {
    forall m: Bound | Has(tip, m) ensures Has(MergeTrees(base, ours, tip), m) || m in excused {
      MergedHas(base.state, ours.state, tip.state, m);
      assert !Conflicting(Get(base.state, m.slot), Get(ours.state, m.slot), Get(tip.state, m.slot));
      assert Has(base, m) ==> Has(ours, m) || m in excused;
    }
  }

  /** A replay loses only what the commit lost and what it names. */
  lemma ReplayLossless(base: Tree, ours: Tree, tip: Tree, excused: set<Bound>)
    requires Lossless(base, ours, excused)
    ensures Lossless(tip, Replayed(base, ours, tip), excused + Named(base, ours, tip))
  {
    forall m: Bound | Has(tip, m)
      ensures Has(Replayed(base, ours, tip), m) || m in excused + Named(base, ours, tip)
    {
      MergedHas(base.state, ours.state, tip.state, m);
      assert Has(base, m) ==> Has(ours, m) || m in excused;
    }
  }

  // ---------- One action each ----------

  lemma StartKeeps(w: World, r: nat, trigger: nat, folder: string)
    requires Inv(w) && Enabled(w, Start(r, trigger, folder))
    ensures Inv(DoStart(w, r, trigger, folder))
  {
    assert OnBranch(w, w.branch);
    hide LoopOk, EndedOk, Carries, CommitsLossless, IsAncestor;
    var v := DoStart(w, r, trigger, folder);
    var tree := Overlay(w, trigger);
    BranchHistory(w, trigger);
    if tree == w.store[trigger].tree {
      RecordsOnly(w, v);
    } else {
      assert Lossless(w.store[trigger].tree, tree, Excused(w.ledger) + {});
      LocalCommit(w, v, GitStore.Commit(trigger, tree, {}));
      GrownOnBranch(w, v, trigger);
    }
    GrownOnBranch(w, v, w.branch);
    OneRunMoved(w, v, r, v.runs[r]);
  }

  /** A vendor call or an edit in the working tree: what goes from it is on record, and what was
      made is in it. */
  lemma WorkKeeps(w: World, v: World, r: nat, work: Tree, made: set<Bound>)
    requires Inv(w) && r in w.runs && w.runs[r].phase.Deploying?
    requires v.store == w.store && v.branch == w.branch && v.runs == w.runs[r := w.runs[r].(work := work, made := made)]
    requires Excused(w.ledger) <= Excused(v.ledger) && w.ledger.offered <= v.ledger.offered
             && w.ledger.named <= v.ledger.named
    requires Lossless(w.runs[r].work, work, Excused(v.ledger))
    requires forall m :: m in made ==> m in w.runs[r].made || Has(work, m)
    ensures Inv(v)
  {
    hide HistoryOk, IsAncestor, CommitOk, EndedOk, LoopOk, Excused;
    RecordsOnly(w, v);
    GrownRunOk(w, v, w.runs[r]);
    OneRunMoved(w, v, r, v.runs[r]);
  }

  lemma DeployKeeps(w: World, r: nat, action: Action)
    requires Inv(w) && r in w.runs && Ready(w, w.runs[r], action)
    requires action.Create? || action.Delete? || action.Edit?
    ensures Inv(DoAct(w, r, w.runs[r], action))
  {
    hide HistoryOk, LoopOk, EndedOk, CommitOk, IsAncestor;
    var v := DoAct(w, r, w.runs[r], action);
    assert Lossless(w.runs[r].work, v.runs[r].work, Excused(v.ledger));
    WorkKeeps(w, v, r, v.runs[r].work, v.runs[r].made);
  }

  lemma AbortKeeps(w: World, r: nat)
    requires Inv(w) && r in w.runs && Ready(w, w.runs[r], Abort)
    ensures Inv(DoAct(w, r, w.runs[r], Abort))
  {
    hide HistoryOk, IsAncestor, CommitOk, EndedOk, LoopOk, Excused;
    var v := DoAct(w, r, w.runs[r], Abort);
    RecordsOnly(w, v);
    OneRunMoved(w, v, r, v.runs[r]);
  }

  lemma NothingToCommit(w: World, r: nat, rulesValid: bool, deployStatus: nat)
    requires Inv(w) && r in w.runs && w.runs[r].phase.Deploying?
    requires Staged(w.runs[r], w.store[w.runs[r].base].tree, rulesValid) == w.store[w.runs[r].base].tree
    ensures Inv(DoCommit(w, r, w.runs[r], rulesValid, deployStatus))
  {
    hide CommitsLossless, IsAncestor, AllLanded, LoopOk, Excused;
    var run, v := w.runs[r], DoCommit(w, r, w.runs[r], rulesValid, deployStatus);
    var base := w.store[run.base].tree;
    RecordsOnly(w, v);
    forall m: Bound | m in run.made ensures m in Excused(v.ledger) || Has(Tip(v), m) {
      assert Has(run.work, m) ==> Has(base, m);
    }
    OneRunMoved(w, v, r, v.runs[r]);
  }

  lemma CommitKeeps(w: World, r: nat, rulesValid: bool, deployStatus: nat)
    requires Inv(w) && r in w.runs && w.runs[r].phase.Deploying?
    ensures Inv(DoCommit(w, r, w.runs[r], rulesValid, deployStatus))
  {
    hide CommitsLossless, IsAncestor, AllLanded, EndedOk, Excused;
    var run := w.runs[r];
    var base := w.store[run.base].tree;
    var staged := Staged(run, base, rulesValid);
    if staged == base {
      NothingToCommit(w, r, rulesValid, deployStatus);
      return;
    }
    var v := DoCommit(w, r, run, rulesValid, deployStatus);
    assert Lossless(base, staged, Excused(w.ledger) + {});
    LocalCommit(w, v, GitStore.Commit(run.base, staged, {}));
    GrownOnTop(w, v, run.base);
    assert v.store[v.runs[r].head].tree == staged;
    assert forall m :: Has(staged, m) == Has(run.work, m);
    GrownOnBranch(w, v, run.origin);
    OneRunMoved(w, v, r, v.runs[r]);
  }

  /** The EXIT trap. */
  lemma TrapKeeps(w: World, r: nat, run: Run, code: nat)
    requires Ok(w) && r in w.runs && WellFormed(w.store, run)
    requires run.attempt > 0 && run.pushes <= PUSH_ATTEMPTS && code > 0
    requires LoopOk(w, run.(pushes := run.attempt - 1))
    requires Inv(w)
    ensures Inv(Trap(w, r, run, code))
  {
    var v := Trap(w, r, run, code);
    hide HistoryOk, IsAncestor, CommitOk, DeployingOk, AllLanded, Carries;
    RecordsOnly(w, v);
    var s := w.store[run.stateCommit].tree;
    forall m: Bound | m in run.made && Has(s, m) && m !in Excused(w.ledger) && !Has(Tip(w), m)
      ensures m in v.ledger.offered
    {
      assert !Has(Parent(w.store, run.stateCommit), m);
      assert m in Lost(s, Parent(w.store, run.stateCommit));
    }
    OneRunMoved(w, v, r, v.runs[r]);
  }

  lemma RejectionKeeps(w: World, r: nat, run: Run)
    requires Ok(w) && r in w.runs && WellFormed(w.store, run)
    requires run.phase.Pushing? && run.pushes == run.attempt && run.attempt > 0
    requires LoopOk(w, run.(pushes := run.attempt - 1))
    requires Inv(w)
    ensures Inv(AfterRejection(w, r, run))
  {
    hide HistoryOk, IsAncestor, Carries, DeployingOk, EndedOk;
    if run.attempt >= PUSH_ATTEMPTS {
      TrapKeeps(w, r, run, 1);
    } else {
      var v := AfterRejection(w, r, run);
      RecordsOnly(w, v);
      GrownRunOk(w, v, run.(pushes := run.attempt - 1));
      OneRunMoved(w, v, r, v.runs[r]);
    }
  }

  /** The server takes the push: the branch now holds all the run set, or it is excused. */
  lemma LandingKeeps(w: World, r: nat)
    requires Inv(w) && r in w.runs && Ready(w, w.runs[r], Push(Accepted))
    ensures Inv(Landing(w, w.runs[r].head))
    ensures forall m :: m in w.runs[r].made ==>
              m in Excused(Landing(w, w.runs[r].head).ledger) || Has(Tip(Landing(w, w.runs[r].head)), m)
    ensures w.runs[r].status == 0 ==>
              var run := w.runs[r];
              var base := w.store[run.base].tree;
              AllLanded(Landing(w, run.head), run.origin, base, Deliverable(run, base))
  {
    var run := w.runs[r];
    var v := Landing(w, run.head);
    Landed(w, run.head);
    forall q | q in v.runs ensures RunOk(v, v.runs[q]) { GrownRunOk(w, v, w.runs[q]); }
    if run.status == 0 {
      GrownCarries(w, v, run.origin, w.store[run.base].tree, w.store[run.first].tree, w.store[run.head].tree);
      AncestorTransitive(w.store, run.origin, w.branch, run.head);
      assert Follows(v, run.origin, run.head);
      HeadLanded(v, run.origin, run.head, w.store[run.base].tree, w.store[run.first].tree);
    }
  }

  lemma HeadLanded(v: World, origin: nat, head: nat, base: Tree, first: Tree)
    requires Ok(v) && head < |v.store| && Follows(v, origin, head)
             && Carries(v, origin, base, first, v.store[head].tree)
    ensures AllLanded(v, origin, base, first)
  {
  }

  lemma AcceptedKeeps(w: World, r: nat)
    requires Inv(w) && r in w.runs && Ready(w, w.runs[r], Push(Accepted))
    ensures Inv(DoPush(w, r, w.runs[r], Accepted))
  {
    hide HistoryOk, IsAncestor, Carries, DeployingOk, CommitOk, Excused;
    var run := w.runs[r];
    var l, v := Landing(w, run.head), DoPush(w, r, run, Accepted);
    LandingKeeps(w, r);
    assert LoopOk(w, run);
    RecordsOnly(l, v);
    var base := w.store[run.base].tree;
    if run.status == 0 { GrownAllLanded(l, v, run.origin, base, Deliverable(run, base)); }
    hide AllLanded;
    OneRunMoved(l, v, r, v.runs[r]);
  }

  lemma PushKeeps(w: World, r: nat, answer: Answer)
    requires Inv(w) && r in w.runs && Ready(w, w.runs[r], Push(answer))
    ensures Inv(DoPush(w, r, w.runs[r], answer))
  {
    hide HistoryOk, IsAncestor, LoopOk, Excused, DeployingOk, EndedOk, AfterRejection;
    var run := w.runs[r];
    var pushed := run.(pushes := run.pushes + 1);
    assert LoopOk(w, run);
    Counted(w, run, pushed);
    match answer {
      case Accepted => AcceptedKeeps(w, r);
      case Rejected => RejectionKeeps(w, r, pushed);
      case AcceptedButReportedRejected =>
        LandingKeeps(w, r);
        assert LoopOk(Landing(w, run.head), run);
        RejectionKeeps(Landing(w, run.head), r, pushed);
    }
  }

  lemma Counted(w: World, run: Run, pushed: Run)
    requires Ok(w) && WellFormed(w.store, run) && LoopOk(w, run) && pushed == run.(pushes := run.pushes + 1)
    ensures pushed.pushes == pushed.attempt > 0 && pushed.(pushes := pushed.attempt - 1) == run
  {
  }

  lemma FetchKeeps(w: World, r: nat, action: Action)
    requires Inv(w) && r in w.runs && Ready(w, w.runs[r], action) && (action.Fetch? || action.StopRebase?)
    ensures Inv(DoAct(w, r, w.runs[r], action))
  {
    var v := DoAct(w, r, w.runs[r], action);
    RecordsOnly(w, v);
    GrownRunOk(w, v, w.runs[r]);
    OneRunMoved(w, v, r, v.runs[r]);
  }

  /** The delta of the run's first commit is still carried after a clean rebase. */
  lemma RebaseCarries(w: World, run: Run, tree: Tree)
    requires Ok(w) && WellFormed(w.store, run) && run.phase.Rebasing? && CommitOk(w, run)
    requires tree == MergeTrees(Parent(w.store, run.head), w.store[run.head].tree, w.store[run.phase.tip].tree)
    ensures Carries(w, run.origin, w.store[run.base].tree, w.store[run.first].tree, tree)
  {
    hide Follows, Deliverable;
    var b, f := w.store[run.base].tree, w.store[run.first].tree;
    var p, h, t := Parent(w.store, run.head), w.store[run.head].tree, w.store[run.phase.tip].tree;
    forall s | Get(b.state, s) != Get(f.state, s)
      ensures Get(tree.state, s) == Get(f.state, s) || StateLanded(w, run.origin, s, Get(f.state, s))
    {
      MergeAt(p.state, h.state, t.state, s);
    }
    forall s | Get(b.rules, s) != Get(f.rules, s)
      ensures Get(tree.rules, s) == Get(f.rules, s) || RuleLanded(w, run.origin, s, Get(f.rules, s))
    {
      MergeAt(p.rules, h.rules, t.rules, s);
    }
  }

  /** What the run made is in the merged tree, or on the branch, or excused. */
  lemma MergedHolds(w: World, base: Tree, ours: Tree, tip: Tree, tree: Tree, made: set<Bound>)
    requires Ok(w) && Reflected(w, base) && tree.state == Merge3(base.state, ours.state, tip.state)
    requires forall m :: m in made ==> m in Excused(w.ledger) || Has(Tip(w), m) || Has(ours, m)
    ensures forall m :: m in made ==> m in Excused(w.ledger) || Has(Tip(w), m) || Has(tree, m)
  {
    forall m: Bound | m in made && Has(ours, m)
      ensures m in Excused(w.ledger) || Has(Tip(w), m) || Has(tree, m)
    {
      MergedHas(base.state, ours.state, tip.state, m);
      assert Has(base, m) ==> Has(Tip(w), m) || m in Excused(w.ledger);
    }
  }

  /** Both outcomes of a clean rebase: HEAD is the merged tree on a parent that is on the branch. */
  lemma RebasedLoopOk(w: World, v: World, run: Run, next: Run)
    requires Ok(w) && HistoryOk(w) && WellFormed(w.store, run) && run.phase.Rebasing? && LoopOk(w, run)
    requires Ok(v) && WellFormed(v.store, next) && Grown(w, v)
    requires next == run.(phase := Pushing, head := next.head)
    requires OnBranch(v, v.store[next.head].parent) && Reflected(v, Parent(v.store, next.head))
    requires Follows(v, run.origin, v.store[next.head].parent) || Follows(v, run.origin, next.head)
    requires v.store[next.head].tree
             == MergeTrees(Parent(w.store, run.head), w.store[run.head].tree, w.store[run.phase.tip].tree)
    ensures LoopOk(v, next)
  {
    hide HistoryOk, IsAncestor, Carries, Merge3, DeployingOk, EndedOk, Follows;
    var base, ours, tip := Parent(w.store, run.head), w.store[run.head].tree, w.store[run.phase.tip].tree;
    var tree := MergeTrees(base, ours, tip);
    MergedHolds(w, base, ours, tip, tree, run.made);
    GrownRunOk(w, v, run);
    assert forall c :: 0 <= c < |w.store| ==> v.store[c] == w.store[c];
    if run.status == 0 {
      RebaseCarries(w, run, tree);
      GrownCarries(w, v, run.origin, w.store[run.base].tree, w.store[run.first].tree, tree);
    }
  }

  lemma RebaseKeeps(w: World, r: nat)
    requires Inv(w) && r in w.runs && w.runs[r].phase.Rebasing? && Ready(w, w.runs[r], Rebase)
    ensures Inv(DoRebase(w, r, w.runs[r]))
  {
    hide DeployingOk, EndedOk, Carries, Clean, Merge3, IsAncestor, CommitsLossless;
    var run := w.runs[r];
    var v := DoRebase(w, r, run);
    var tip := run.phase.tip;
    var tree := MergeTrees(Parent(w.store, run.head), w.store[run.head].tree, w.store[tip].tree);
    if tree == w.store[tip].tree {
      RecordsOnly(w, v);
      ParentOnBranch(w, tip);
    } else {
      RebaseLossless(w, run);
      LocalCommit(w, v, GitStore.Commit(tip, tree, w.store[run.head].named));
      GrownOnBranch(w, v, tip);
      BranchHistory(v, tip);
    }
    GrownFollows(w, v, run.origin, tip);
    RebasedLoopOk(w, v, run, v.runs[r]);
    OneRunMoved(w, v, r, v.runs[r]);
  }

  lemma ParentOnBranch(w: World, c: nat)
    requires Ok(w) && HistoryOk(w) && c < |w.store| && OnBranch(w, c)
    ensures OnBranch(w, w.store[c].parent) && Reflected(w, Parent(w.store, c))
  {
    var p := w.store[c].parent;
    assert IsAncestor(w.store, p, p) && IsAncestor(w.store, p, c);
    AncestorTransitive(w.store, p, c, w.branch);
    BranchHistory(w, p);
  }

  lemma RebaseLossless(w: World, run: Run)
    requires Ok(w) && HistoryOk(w) && WellFormed(w.store, run) && run.phase.Rebasing? && Ready(w, run, Rebase)
    ensures var base, ours, tip := Parent(w.store, run.head), w.store[run.head].tree, w.store[run.phase.tip].tree;
            Lossless(tip, MergeTrees(base, ours, tip), Excused(w.ledger) + w.store[run.head].named)
  {
    CleanMergeLossless(Parent(w.store, run.head), w.store[run.head].tree, w.store[run.phase.tip].tree,
                       Excused(w.ledger) + w.store[run.head].named);
  }

  lemma ReplayKeeps(w: World, r: nat)
    requires Inv(w) && r in w.runs && w.runs[r].phase.Replaying?
    ensures Inv(DoReplay(w, r, w.runs[r]))
  {
    hide DeployingOk, Carries, CommitOk, AllLanded, Merge3, IsAncestor, CommitsLossless;
    var run := w.runs[r];
    var v := DoReplay(w, r, run);
    var s, tip := run.stateCommit, run.phase.tip;
    var base, ours, onto := Parent(w.store, s), w.store[s].tree, w.store[tip].tree;
    var tree := Replayed(base, ours, onto);
    MergedHolds(w, base, ours, onto, tree, run.made);
    BranchHistory(w, tip);
    if tree == onto {
      RecordsOnly(w, v);
    } else {
      ReplayCommitLossless(w, s, onto);
      LocalCommit(w, v, GitStore.Commit(tip, tree, w.store[s].named + Named(base, ours, onto)));
      GrownOnBranch(w, v, tip);
    }
    GrownOnBranch(w, v, run.origin);
    OneRunMoved(w, v, r, v.runs[r]);
  }

  lemma ReplayCommitLossless(w: World, s: nat, onto: Tree)
    requires Ok(w) && HistoryOk(w) && s < |w.store|
    ensures var base, ours := Parent(w.store, s), w.store[s].tree;
            Lossless(onto, Replayed(base, ours, onto),
                     Excused(w.ledger) + (w.store[s].named + Named(base, ours, onto)))
  {
    var base, ours := Parent(w.store, s), w.store[s].tree;
    ReplayLossless(base, ours, onto, Excused(w.ledger) + w.store[s].named);
    assert Excused(w.ledger) + w.store[s].named + Named(base, ours, onto)
        == Excused(w.ledger) + (w.store[s].named + Named(base, ours, onto));
  }

  lemma ExitKeeps(w: World, r: nat, code: nat)
    requires Inv(w) && r in w.runs && Ready(w, w.runs[r], Exit(code))
    ensures Inv(Trap(w, r, w.runs[r], code))
  {
    hide HistoryOk, Carries, CommitOk;
    var run := w.runs[r];
    assert run == run.(pushes := run.attempt - 1);
    TrapKeeps(w, r, run, code);
  }

  /** Every step of every run, and of everybody else, keeps the invariant. */
  lemma StepKeeps(w: World, step: Step)
    requires Inv(w) && Enabled(w, step)
    ensures Inv(Next(w, step))
  {
    hide HistoryOk, RunOk, DoStart, DoMerge, DoCommit, DoPush, DoRebase, DoReplay, Trap;
    match step {
      case Start(r, trigger, folder) => StartKeeps(w, r, trigger, folder);
      case Merge(tree) => HandMerge(w, tree);
      case Act(r, action) =>
        match action {
          case Create(_, _) => DeployKeeps(w, r, action);
          case Delete(_) => DeployKeeps(w, r, action);
          case Edit(_, _) => DeployKeeps(w, r, action);
          case Abort => AbortKeeps(w, r);
          case Commit(rulesValid, deployStatus) => CommitKeeps(w, r, rulesValid, deployStatus);
          case Push(answer) => PushKeeps(w, r, answer);
          case Fetch => FetchKeeps(w, r, action);
          case StopRebase => FetchKeeps(w, r, action);
          case Rebase => RebaseKeeps(w, r);
          case Replay => ReplayKeeps(w, r);
          case Exit(code) => ExitKeeps(w, r, code);
        }
    }
  }
}
