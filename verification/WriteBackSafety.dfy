/** What every step of the write-back keeps, and what follows for whole behaviours. */
module WriteBackSafety {
  import opened Options
  import opened GitStore
  import opened WriteBack

  // ---------- The invariant ----------

  predicate OnBranch(w: World, c: nat)
    requires Ok(w)
  {
    IsAncestor(w.store, c, w.branch)
  }

  function Tip(w: World): Tree
    requires Ok(w)
  {
    w.store[w.branch].tree
  }

  /** Every binding of `t` is on the branch or excused. */
  ghost predicate Reflected(w: World, t: Tree)
    requires Ok(w)
  {
    Lossless(t, Tip(w), Excused(w.ledger))
  }

  ghost predicate HistoryOk(w: World)
    requires Ok(w)
  {
    && CommitsLossless(w.store, Excused(w.ledger))
    && forall c :: 0 <= c < |w.store| && OnBranch(w, c) ==> w.store[c].named <= w.ledger.named
  }

  /** A commit of the branch that is `origin` or follows it. */
  predicate Follows(w: World, origin: nat, c: nat)
    requires Ok(w) && c < |w.store|
  {
    OnBranch(w, c) && IsAncestor(w.store, origin, c)
  }

  /** Since `origin`, some commit of the branch held this value, absence included. */
  ghost predicate StateLanded(w: World, origin: nat, s: Slot, v: Option<string>)
    requires Ok(w)
  {
    exists c :: 0 <= c < |w.store| && Follows(w, origin, c) && Get(w.store[c].tree.state, s) == v
  }

  ghost predicate RuleLanded(w: World, origin: nat, f: string, v: Option<string>)
    requires Ok(w)
  {
    exists c :: 0 <= c < |w.store| && Follows(w, origin, c) && Get(w.store[c].tree.rules, f) == v
  }

  /** Every change of the run's first commit is in `head` or has been on the branch since `origin`. */
  ghost predicate Carries(w: World, origin: nat, base: Tree, first: Tree, head: Tree)
    requires Ok(w)
  {
    && (forall s :: Get(base.state, s) != Get(first.state, s) ==>
                      Get(head.state, s) == Get(first.state, s) || StateLanded(w, origin, s, Get(first.state, s)))
    && (forall f :: Get(base.rules, f) != Get(first.rules, f) ==>
                      Get(head.rules, f) == Get(first.rules, f) || RuleLanded(w, origin, f, Get(first.rules, f)))
  }

  /** Every change from `base` to `first` has been on the branch since `origin`. */
  ghost predicate AllLanded(w: World, origin: nat, base: Tree, first: Tree)
    requires Ok(w)
  {
    && (forall s :: Get(base.state, s) != Get(first.state, s) ==> StateLanded(w, origin, s, Get(first.state, s)))
    && (forall f :: Get(base.rules, f) != Get(first.rules, f) ==> RuleLanded(w, origin, f, Get(first.rules, f)))
  }

  /** Every change from `base` to the working tree, to the state or to a file of the rules folder that
      git tracks, has been on the branch since `origin`. */
  ghost predicate WorkLanded(w: World, origin: nat, base: Tree, work: Tree, folder: string)
    requires Ok(w)
  {
    && (forall s :: Get(work.state, s) != Get(base.state, s) ==> StateLanded(w, origin, s, Get(work.state, s)))
    && (forall f :: f in base.rules && (f == folder || folder + "/" <= f) && Get(work.rules, f) != Get(base.rules, f)
          ==> RuleLanded(w, origin, f, Get(work.rules, f)))
  }

  lemma DeliverableIsTheWork(w: World, origin: nat, base: Tree, run: Run)
    requires Ok(w) && AllLanded(w, origin, base, Deliverable(run, base))
    ensures WorkLanded(w, origin, base, run.work, run.folder)
  {
    hide StateLanded, RuleLanded;
    forall f ensures Get(Deliverable(run, base).rules, f)
                     == if f in base.rules && IsRule(run.folder, f) then Get(run.work.rules, f) else Get(base.rules, f)
    {
      TrackedAt(run.folder, base.rules, run.work.rules, f);
    }
    hide Tracked;
  }

  /** A commit whose ancestors are on the branch, but for at most one overlay in between. */
  ghost predicate OnTopOfBranch(w: World, parent: nat)
    requires Ok(w) && parent < |w.store|
  {
    OnBranch(w, parent) || (w.store[parent].named == {} && OnBranch(w, w.store[parent].parent))
  }

  ghost predicate DeployingOk(w: World, run: Run)
    requires Ok(w) && WellFormed(w.store, run)
  {
    && run.pushes == 0 && !run.published && !run.committed && OnBranch(w, run.origin)
    && Reflected(w, w.store[run.base].tree) && OnTopOfBranch(w, run.base)
    && Lossless(w.store[run.base].tree, run.work, Excused(w.ledger))
    && (forall m :: m in run.made ==> m in Excused(w.ledger) || Has(run.work, m))
  }

  ghost predicate LoopOk(w: World, run: Run)
    requires Ok(w) && WellFormed(w.store, run)
  {
    && run.committed && !run.published && OnBranch(w, run.origin)
    && 1 <= run.attempt <= PUSH_ATTEMPTS && run.pushes == run.attempt - 1 && (run.phase.Pushing? || run.attempt > 1)
    && OnTopOfBranch(w, w.store[run.head].parent)
    && Reflected(w, Parent(w.store, run.head)) && Reflected(w, Parent(w.store, run.stateCommit))
    && (run.phase.Rebasing? || run.phase.Replaying? ==> Follows(w, run.origin, run.phase.tip))
    && (forall m :: m in run.made ==>
          || m in Excused(w.ledger)
          || Has(Tip(w), m)
          || (Has(w.store[run.head].tree, m) && Has(w.store[run.stateCommit].tree, m)))
    && (run.status == 0 ==> CommitOk(w, run))
    && (run.phase.Replaying? ==> run.status != 0)
  }

  /** Nothing has been left out so far. */
  ghost predicate CommitOk(w: World, run: Run)
    requires Ok(w) && WellFormed(w.store, run)
  {
    && 0 < run.first && w.store[run.first].parent == run.base
    && w.store[run.first].tree == Deliverable(run, w.store[run.base].tree)
    && (run.head == run.first || Follows(w, run.origin, w.store[run.head].parent) || Follows(w, run.origin, run.head))
    && Carries(w, run.origin, w.store[run.base].tree, w.store[run.first].tree, w.store[run.head].tree)
  }

  ghost predicate EndedOk(w: World, run: Run)
    requires Ok(w) && WellFormed(w.store, run) && run.phase.Ended?
  {
    && run.pushes <= PUSH_ATTEMPTS
    && (forall m :: m in run.made ==>
          || m in Excused(w.ledger)
          || Has(Tip(w), m)
          || (!run.published && m in w.ledger.offered))
    && (run.deployStatus != 0 ==> run.phase.exit == run.deployStatus)
    && (run.phase.exit == 0 ==>
          var base := w.store[run.base].tree;
          if run.committed then run.published && AllLanded(w, run.origin, base, Deliverable(run, base))
          else Deliverable(run, base) == base)
  }

  ghost predicate RunOk(w: World, run: Run)
    requires Ok(w) && WellFormed(w.store, run)
  {
    match run.phase
    case Deploying => DeployingOk(w, run)
    case Ended(_) => EndedOk(w, run)
    case Aborted => true
    case _ => LoopOk(w, run)
  }

  ghost predicate Inv(w: World) {
    Ok(w) && HistoryOk(w) && forall r :: r in w.runs ==> RunOk(w, w.runs[r])
  }

  // ---------- Other runs' steps ----------

  /** The world has moved on: commits and records are only added, and the branch has only moved
      to a descendant that loses nothing unexcused. */
  ghost predicate Grown(w: World, v: World)
    requires Ok(w) && Ok(v)
  {
    && w.store <= v.store
    && Excused(w.ledger) <= Excused(v.ledger) && w.ledger.offered <= v.ledger.offered
    && IsAncestor(v.store, w.branch, v.branch)
    && Lossless(Tip(w), Tip(v), Excused(v.ledger))
  }

  lemma GrownOnBranch(w: World, v: World, c: nat)
    requires Ok(w) && Ok(v) && Grown(w, v)
    requires c < |w.store| && OnBranch(w, c)
    ensures OnBranch(v, c)
  {
    AncestorInLongerStore(w.store, v.store, c, w.branch);
    AncestorTransitive(v.store, c, w.branch, v.branch);
  }

  lemma GrownFollows(w: World, v: World, origin: nat, c: nat)
    requires Ok(w) && Ok(v) && Grown(w, v) && c < |w.store| && Follows(w, origin, c)
    ensures Follows(v, origin, c)
  {
    GrownOnBranch(w, v, c);
    AncestorInLongerStore(w.store, v.store, origin, c);
  }

  lemma GrownStateLanded(w: World, v: World, origin: nat, s: Slot, x: Option<string>)
    requires Ok(w) && Ok(v) && Grown(w, v) && StateLanded(w, origin, s, x)
    ensures StateLanded(v, origin, s, x)
  {
    hide Grown, Follows;
    var c :| 0 <= c < |w.store| && Follows(w, origin, c) && Get(w.store[c].tree.state, s) == x;
    GrownFollows(w, v, origin, c);
    GrownStore(w, v);
  }

  lemma GrownRuleLanded(w: World, v: World, origin: nat, f: string, x: Option<string>)
    requires Ok(w) && Ok(v) && Grown(w, v) && RuleLanded(w, origin, f, x)
    ensures RuleLanded(v, origin, f, x)
  {
    hide Grown, Follows;
    var c :| 0 <= c < |w.store| && Follows(w, origin, c) && Get(w.store[c].tree.rules, f) == x;
    GrownFollows(w, v, origin, c);
    GrownStore(w, v);
  }

  lemma GrownStore(w: World, v: World)
    requires Ok(w) && Ok(v) && Grown(w, v)
    ensures |w.store| <= |v.store| && forall c :: 0 <= c < |w.store| ==> v.store[c] == w.store[c]
  {
  }

  lemma GrownCarries(w: World, v: World, origin: nat, base: Tree, first: Tree, head: Tree)
    requires Ok(w) && Ok(v) && Grown(w, v) && Carries(w, origin, base, first, head)
    ensures Carries(v, origin, base, first, head)
  {
    hide Grown, StateLanded, RuleLanded;
    forall s | StateLanded(w, origin, s, Get(first.state, s)) ensures StateLanded(v, origin, s, Get(first.state, s)) {
      GrownStateLanded(w, v, origin, s, Get(first.state, s));
    }
    forall f | RuleLanded(w, origin, f, Get(first.rules, f)) ensures RuleLanded(v, origin, f, Get(first.rules, f)) {
      GrownRuleLanded(w, v, origin, f, Get(first.rules, f));
    }
  }

  lemma GrownAllLanded(w: World, v: World, origin: nat, base: Tree, first: Tree)
    requires Ok(w) && Ok(v) && Grown(w, v) && AllLanded(w, origin, base, first)
    ensures AllLanded(v, origin, base, first)
  {
    hide Grown, StateLanded, RuleLanded;
    forall s | StateLanded(w, origin, s, Get(first.state, s)) ensures StateLanded(v, origin, s, Get(first.state, s)) {
      GrownStateLanded(w, v, origin, s, Get(first.state, s));
    }
    forall f | RuleLanded(w, origin, f, Get(first.rules, f)) ensures RuleLanded(v, origin, f, Get(first.rules, f)) {
      GrownRuleLanded(w, v, origin, f, Get(first.rules, f));
    }
  }

  lemma GrownOnTop(w: World, v: World, c: nat)
    requires Ok(w) && Ok(v) && Grown(w, v) && c < |w.store| && OnTopOfBranch(w, c)
    ensures OnTopOfBranch(v, c)
  {
    assert v.store[c] == w.store[c];
    if OnBranch(w, c) { GrownOnBranch(w, v, c); } else { GrownOnBranch(w, v, w.store[c].parent); }
  }

  lemma GrownCommitOk(w: World, v: World, run: Run)
    requires Ok(w) && Ok(v) && Grown(w, v) && WellFormed(w.store, run) && CommitOk(w, run)
    ensures WellFormed(v.store, run) && CommitOk(v, run)
  {
    GrownStore(w, v);
    GrownCarries(w, v, run.origin, w.store[run.base].tree, w.store[run.first].tree, w.store[run.head].tree);
    hide Grown, Follows, Carries;
    var p := w.store[run.head].parent;
    if Follows(w, run.origin, p) { GrownFollows(w, v, run.origin, p); }
    if Follows(w, run.origin, run.head) { GrownFollows(w, v, run.origin, run.head); }
  }

  /** What a run relies on survives everybody else's steps. */
  lemma GrownRunOk(w: World, v: World, run: Run)
    requires Ok(w) && Ok(v) && Grown(w, v) && WellFormed(w.store, run) && RunOk(w, run)
    ensures WellFormed(v.store, run) && RunOk(v, run)
  {
    hide CommitOk, AllLanded, Follows, IsAncestor, Deliverable;
    GrownStore(w, v);
    if run.phase.Deploying? {
      GrownOnTop(w, v, run.base);
      GrownOnBranch(w, v, run.origin);
    } else if run.phase.Ended? {
      if run.phase.exit == 0 && run.committed {
        var base := w.store[run.base].tree;
        GrownAllLanded(w, v, run.origin, base, Deliverable(run, base));
      }
    } else if InLoop(run.phase) {
      GrownOnTop(w, v, w.store[run.head].parent);
      GrownOnBranch(w, v, run.origin);
      if run.phase.Rebasing? || run.phase.Replaying? { GrownFollows(w, v, run.origin, run.phase.tip); }
      if run.status == 0 { GrownCommitOk(w, v, run); }
    }
  }

  // ---------- The four ways a step changes what others see ----------

  lemma BranchHistory(w: World, c: nat)
    requires Ok(w) && HistoryOk(w) && c < |w.store| && OnBranch(w, c)
    ensures Reflected(w, w.store[c].tree)
  {
    HistoryLossless(w.store, Excused(w.ledger), c, w.branch);
  }

  /** Nothing but records. */
  lemma RecordsOnly(w: World, v: World)
    requires Ok(w) && HistoryOk(w) && Ok(v)
    requires v.store == w.store && v.branch == w.branch
    requires Excused(w.ledger) <= Excused(v.ledger) && w.ledger.offered <= v.ledger.offered
             && w.ledger.named <= v.ledger.named
    ensures Grown(w, v) && HistoryOk(v)
  {
    MoreExcused(w.store, Excused(w.ledger), Excused(v.ledger));
  }

  /** A commit nobody has pushed. */
  lemma LocalCommit(w: World, v: World, c: Commit)
    requires Ok(w) && HistoryOk(w) && Ok(v)
    requires v.store == w.store + [c] && v.branch == w.branch && v.ledger == w.ledger
    requires c.parent < |w.store| && Lossless(w.store[c.parent].tree, c.tree, Excused(w.ledger) + c.named)
    ensures Grown(w, v) && HistoryOk(v)
  {
    forall i | 0 <= i < |v.store|
      ensures Lossless(v.store[v.store[i].parent].tree, v.store[i].tree, Excused(v.ledger) + v.store[i].named)
      ensures OnBranch(v, i) ==> v.store[i].named <= v.ledger.named
    {
      if i < |w.store| {
        assert Lossless(w.store[w.store[i].parent].tree, w.store[i].tree, Excused(w.ledger) + w.store[i].named);
        AncestorInLongerStore(w.store, v.store, i, w.branch);
      } else if OnBranch(v, i) {
        AncestorBounds(v.store, i, v.branch);
      }
    }
    AncestorInLongerStore(w.store, v.store, w.branch, w.branch);
  }

  /** A push the server took. */
  lemma Landed(w: World, head: nat)
    requires Ok(w) && HistoryOk(w) && head < |w.store|
    requires OnTopOfBranch(w, w.store[head].parent) && IsAncestor(w.store, w.branch, head)
    ensures Ok(Landing(w, head)) && HistoryOk(Landing(w, head)) && Grown(w, Landing(w, head))
  {
    var v := Landing(w, head);
    forall i | 0 <= i < |v.store| && OnBranch(v, i)
      ensures v.store[i].named <= v.ledger.named
    {
      NamedOnTheWay(w, head, i);
    }
    MoreExcused(w.store, Excused(w.ledger), Excused(v.ledger));
    HistoryLossless(v.store, Excused(v.ledger), w.branch, v.branch);
  }

  lemma NamedOnTheWay(w: World, head: nat, i: nat)
    requires Ok(w) && HistoryOk(w) && head < |w.store| && i < |w.store|
    requires OnTopOfBranch(w, w.store[head].parent) && IsAncestor(w.store, i, head)
    ensures w.store[i].named <= w.ledger.named + w.store[head].named
  {
    var p := w.store[head].parent;
    if i != head && i != p {
      var q := w.store[p].parent;
      if OnBranch(w, p) { AncestorTransitive(w.store, i, p, w.branch); }
      else { AncestorTransitive(w.store, i, q, w.branch); }
    } else if i == p && !OnBranch(w, p) {
      assert w.store[p].named == {};
    }
  }

  lemma HandMerge(w: World, tree: Tree)
    requires Inv(w)
    ensures Inv(DoMerge(w, tree))
  {
    var v := DoMerge(w, tree);
    var c := GitStore.Commit(w.branch, tree, {});
    assert Lossless(Tip(w), tree, Excused(v.ledger)) by {
      forall m: Bound | Has(Tip(w), m) ensures Has(tree, m) || m in Excused(v.ledger) {
        if !Has(tree, m) { assert m in Lost(Tip(w), tree); }
      }
    }
    forall i | 0 <= i < |v.store|
      ensures Lossless(v.store[v.store[i].parent].tree, v.store[i].tree, Excused(v.ledger) + v.store[i].named)
      ensures IsAncestor(v.store, i, v.branch) ==> v.store[i].named <= v.ledger.named
    {
      if i < |w.store| {
        assert Lossless(w.store[w.store[i].parent].tree, w.store[i].tree, Excused(w.ledger) + w.store[i].named);
        AncestorInLongerStore(w.store, v.store, i, w.branch);
      }
    }
    AncestorInLongerStore(w.store, v.store, w.branch, w.branch);
    assert IsAncestor(v.store, w.branch, v.branch);
    forall r | r in v.runs ensures WellFormed(v.store, v.runs[r]) {}
    forall r | r in v.runs ensures RunOk(v, v.runs[r]) { GrownRunOk(w, v, w.runs[r]); }
  }

  /** One run has moved. */
  lemma OneRunMoved(w: World, v: World, r: nat, run: Run)
    requires Inv(w) && Ok(v) && HistoryOk(v) && Grown(w, v)
    requires v.runs == w.runs[r := run] && WellFormed(v.store, run) && RunOk(v, run)
    ensures Inv(v)
  {
    forall q | q in v.runs ensures RunOk(v, v.runs[q]) {
      if q != r { GrownRunOk(w, v, w.runs[q]); }
    }
  }
}
