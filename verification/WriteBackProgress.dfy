/** That the push loop gets somewhere: a retry is on top of the branch as it was fetched, and a run
    that nothing disturbs publishes. */
module WriteBackProgress {
  import opened Options
  import opened GitStore
  import opened WriteBack
  import opened WriteBackSafety
  import opened WriteBackSteps
  import opened WriteBackTheorems

  predicate IsForeign(r: nat, step: Step) {
    match step case Start(q, _, _) => q != r case Act(q, _) => q != r case Merge(_) => true
  }

  /** A step of another job leaves this one's variables alone. */
  lemma ForeignKeeps(w: World, step: Step, r: nat)
    requires Ok(w) && r in w.runs && IsForeign(r, step) && Enabled(w, step)
    ensures r in Next(w, step).runs && Next(w, step).runs[r] == w.runs[r]
  {
    if step.Act? { OthersKeep(w, step.r, step.action, r); }
    hide DoAct, Ready, IsAncestor;
  }

  lemma OthersKeep(w: World, q: nat, action: Action, r: nat)
    requires Ok(w) && q in w.runs && r in w.runs && q != r && Ready(w, w.runs[q], action)
    ensures var v := DoAct(w, q, w.runs[q], action);
      r in v.runs && v.runs[r] == w.runs[r]
  {
    hide Ready, IsAncestor, Clean, MergeTrees, Replayed, Named, Lost, Staged, Deliverable, ScriptStatus;
    match action {
      case Push(answer) =>
      case _ =>
    }
  }

  // ---------- On top of the branch ----------

  /** What the run goes by is the branch as it is: a tip it works on, or the commit it will push. */
  predicate OnTip(w: World, run: Run)
    requires Ok(w) && WellFormed(w.store, run)
  {
    match run.phase
    case Rebasing(tip) => tip == w.branch
    case Replaying(tip) => tip == w.branch
    case Pushing => IsAncestor(w.store, w.branch, run.head)
    case _ => true
  }

  lemma OnNewCommit(store: Store, c: GitStore.Commit)
    requires ValidStore(store) && ValidStore(store + [c]) && c.parent < |store|
    ensures IsAncestor(store + [c], c.parent, |store|)
  {
    var longer := store + [c];
    assert longer[|store|] == c;
    assert IsAncestor(longer, c.parent, c.parent);
  }

  lemma OwnStepStaysOnTip(w: World, r: nat, action: Action)
    requires Inv(w) && Ok(w) && r in w.runs && InLoop(w.runs[r].phase) && OnTip(w, w.runs[r])
    requires Ready(w, w.runs[r], action) && Ok(DoAct(w, r, w.runs[r], action))
    requires DoAct(w, r, w.runs[r], action).branch == w.branch
    ensures var v := DoAct(w, r, w.runs[r], action);
      r in v.runs && OnTip(v, v.runs[r])
  {
    hide Inv, OnTip, DoAct, IsAncestor;
    if action.Rebase? || action.Replay? { OnTheFetchedTip(w, r, action); } else { NoNewCommit(w, r, action); }
  }

  lemma NoNewCommit(w: World, r: nat, action: Action)
    requires Ok(w) && r in w.runs && InLoop(w.runs[r].phase) && OnTip(w, w.runs[r])
    requires Ready(w, w.runs[r], action) && Ok(DoAct(w, r, w.runs[r], action))
    requires !action.Rebase? && !action.Replay? && DoAct(w, r, w.runs[r], action).branch == w.branch
    ensures var v := DoAct(w, r, w.runs[r], action);
      r in v.runs && OnTip(v, v.runs[r])
  {
    hide IsAncestor, Lost;
  }

  lemma OnTheFetchedTip(w: World, r: nat, action: Action)
    requires Ok(w) && r in w.runs && OnTip(w, w.runs[r]) && Ready(w, w.runs[r], action)
    requires (action.Rebase? || action.Replay?) && Ok(DoAct(w, r, w.runs[r], action))
    ensures var v := DoAct(w, r, w.runs[r], action);
      r in v.runs && OnTip(v, v.runs[r])
  {
    hide Clean, MergeTrees, Replayed, Named;
    var v := DoAct(w, r, w.runs[r], action);
    if |v.store| > |w.store| { OnNewCommit(w.store, v.store[|w.store|]); }
  }

  lemma ForeignStaysOnTip(w: World, step: Step, r: nat)
    requires Ok(w) && r in w.runs && IsForeign(r, step) && Enabled(w, step) && Ok(Next(w, step))
    requires OnTip(w, w.runs[r]) && Next(w, step).branch == w.branch && w.store <= Next(w, step).store
    ensures r in Next(w, step).runs && OnTip(Next(w, step), w.runs[r])
  {
    var v := Next(w, step);
    ForeignKeeps(w, step, r);
    AncestorInLongerStore(w.store, v.store, w.branch, w.runs[r].head);
    hide Next, IsAncestor;
  }

  lemma InvOk(w: World)
    requires Inv(w)
    ensures Ok(w) && forall r :: r in w.runs ==> WellFormed(w.store, w.runs[r])
  {
  }

  predicate AtWork(phase: Phase) { InLoop(phase) || phase.Ended? }

  /** The fetch itself, or a later step. */
  lemma OneStepOnTip(w: World, step: Step, r: nat)
    requires Inv(w) && Ok(w) && Enabled(w, step) && Ok(Next(w, step)) && w.store <= Next(w, step).store
    requires r in w.runs && AtWork(w.runs[r].phase) && OnTip(w, w.runs[r])
    requires Next(w, step).branch == w.branch
    ensures var v := Next(w, step);
      r in v.runs && AtWork(v.runs[r].phase) && OnTip(v, v.runs[r])
  {
    hide Inv, Clean, MergeTrees, Replayed, Named, Lost, Landing, IsAncestor, OnTip, DoStart, DoMerge;
    if IsForeign(r, step) {
      ForeignKeeps(w, step, r);
      ForeignStaysOnTip(w, step, r);
    } else {
      OwnStepStaysOnTip(w, r, step.action);
    }
  }

  lemma {:induction false} StaysOnTip(ws: seq<World>, steps: seq<Step>, i: nat, j: nat, r: nat)
    requires Behaviour(ws, steps) && i < j < |ws| && steps[i] == Act(r, Fetch)
    requires forall k :: i <= k <= j ==> ws[k].branch == ws[i].branch
    ensures Ok(ws[j]) && r in ws[j].runs && AtWork(ws[j].runs[r].phase) && OnTip(ws[j], ws[j].runs[r])
    decreases j
  {
    hide Next, Enabled, Inv, OnTip, Later;
    Safe(ws, steps, j - 1);
    Safe(ws, steps, j);
    InvOk(ws[j - 1]);
    InvOk(ws[j]);
    if i < j - 1 { StaysOnTip(ws, steps, i, j - 1, r); } else { FetchingOnTip(ws[i], r); }
    StepLater(ws[j - 1], steps[j - 1]);
    LaterStore(ws[j - 1], ws[j]);
    OneStepOnTip(ws[j - 1], steps[j - 1], r);
  }

  lemma LaterStore(w: World, v: World)
    requires Ok(w) && Ok(v) && Later(w, v)
    ensures w.store <= v.store
  {
  }

  lemma FetchingOnTip(w: World, r: nat)
    requires Ok(w) && Enabled(w, Act(r, Fetch))
    ensures r in w.runs && AtWork(w.runs[r].phase) && OnTip(w, w.runs[r])
  {
  }

  /** Once a run has fetched, then as long as nobody moves the branch its next push can land, by
      whichever of rebase and replay it comes to that push; and landing it publishes the run. */
  lemma RetryCanLand(ws: seq<World>, steps: seq<Step>, i: nat, j: nat, r: nat)
    requires Behaviour(ws, steps) && i < j < |ws| && steps[i] == Act(r, Fetch)
    requires forall k :: i <= k <= j ==> ws[k].branch == ws[i].branch
    requires r in ws[j].runs && ws[j].runs[r].phase.Pushing?
    ensures Ok(ws[j]) && Enabled(ws[j], Act(r, Push(Accepted)))
    ensures var v := Next(ws[j], Act(r, Push(Accepted)));
      && v.branch == ws[j].runs[r].head && r in v.runs && v.runs[r].published && v.runs[r].phase.Ended?
  {
    StaysOnTip(ws, steps, i, j, r);
  }

  /** From the rejection on, beside a still branch: the rebase that applies ends at a push that can
      land; so does the replay, with the state merged onto the branch's, unless the branch holds
      that state already. */
  lemma RetryReachesThePush(w: World, r: nat)
    requires Inv(w) && r in w.runs && w.runs[r].phase.Fetching?
    ensures Ok(w) && Enabled(w, Act(r, Fetch))
    ensures var fetched := Next(w, Act(r, Fetch));
      && Ok(fetched) && Enabled(fetched, Act(r, StopRebase))
      && (Enabled(fetched, Act(r, Rebase)) ==>
            var v, run := Next(fetched, Act(r, Rebase)), w.runs[r];
            && Ok(v) && v.branch == w.branch && Enabled(v, Act(r, Push(Accepted)))
            && v.store[v.runs[r].head].tree == MergeTrees(Parent(w.store, run.head), w.store[run.head].tree, Tip(w))
            && v.runs[r].stateCommit == run.stateCommit)
    ensures var stopped := Next(Next(w, Act(r, Fetch)), Act(r, StopRebase));
      && Ok(stopped) && Enabled(stopped, Act(r, Replay))
      && var v, run := Next(stopped, Act(r, Replay)), w.runs[r];
         var merged := Replayed(Parent(w.store, run.stateCommit), w.store[run.stateCommit].tree, Tip(w));
         && Ok(v) && v.branch == w.branch && r in v.runs
         && if merged == Tip(w) then v.runs[r].phase.Ended? && v.runs[r].published
            else
              && Enabled(v, Act(r, Push(Accepted)))
              && v.store[v.runs[r].head].tree == merged && v.runs[r].stateCommit == v.runs[r].head
  {
    hide *;
    FetchedIs(w, r);
    var fetched := Next(w, Act(r, Fetch));
    StepKeeps(w, Act(r, Fetch));
    RebasedIs(fetched, r);
    StepKeeps(fetched, Act(r, StopRebase));
    var stopped := Next(fetched, Act(r, StopRebase));
    ReplayedIs(stopped, r);
    SameTip(w, stopped);
    SameTip(w, fetched);
  }

  lemma SameTip(w: World, v: World)
    requires w.store == v.store && w.branch == v.branch && Ok(w) && Ok(v)
    ensures Tip(w) == Tip(v)
  {
  }

  lemma FetchedIs(w: World, r: nat)
    requires Inv(w) && r in w.runs && w.runs[r].phase.Fetching?
    ensures Ok(w) && Enabled(w, Act(r, Fetch)) && ValidStore(w.store) && w.runs[r].stateCommit < |w.store|
    ensures var v := Next(w, Act(r, Fetch));
      && v.store == w.store && v.branch == w.branch && r in v.runs && w.branch < |v.store|
      && v.runs[r].phase == Rebasing(w.branch) && v.runs[r].stateCommit == w.runs[r].stateCommit
      && v.runs[r].head == w.runs[r].head < |w.store|
  {
  }

  lemma RebasedIs(w: World, r: nat)
    requires Inv(w) && r in w.runs && w.runs[r].phase == Rebasing(w.branch)
    ensures Ok(w) && Enabled(w, Act(r, StopRebase))
    ensures var stopped := Next(w, Act(r, StopRebase));
      && stopped.store == w.store && stopped.branch == w.branch && r in stopped.runs
      && stopped.runs[r].phase == Replaying(w.branch) && stopped.runs[r].stateCommit == w.runs[r].stateCommit
    ensures ValidStore(w.store) && w.runs[r].head < |w.store|
    ensures Enabled(w, Act(r, Rebase)) ==>
      var v, run := Next(w, Act(r, Rebase)), w.runs[r];
      && Ok(v) && v.branch == w.branch && r in v.runs && Enabled(v, Act(r, Push(Accepted)))
      && v.runs[r].head < |v.store| && v.runs[r].stateCommit == run.stateCommit
      && v.store[v.runs[r].head].tree == MergeTrees(Parent(w.store, run.head), w.store[run.head].tree, Tip(w))
  {
    hide Clean, MergeTrees, HistoryOk, RunOk;
    if Enabled(w, Act(r, Rebase)) {
      StepKeeps(w, Act(r, Rebase));
      OwnStepStaysOnTip(w, r, Rebase);
    }
  }

  lemma ReplayedIs(w: World, r: nat)
    requires Inv(w) && r in w.runs && w.runs[r].phase == Replaying(w.branch)
    ensures Ok(w) && Enabled(w, Act(r, Replay)) && ValidStore(w.store) && w.runs[r].stateCommit < |w.store|
    ensures var v, run := Next(w, Act(r, Replay)), w.runs[r];
      var merged := Replayed(Parent(w.store, run.stateCommit), w.store[run.stateCommit].tree, Tip(w));
      && Ok(v) && v.branch == w.branch && r in v.runs
      && if merged == Tip(w) then v.runs[r].phase.Ended? && v.runs[r].published
         else
           && Enabled(v, Act(r, Push(Accepted))) && v.runs[r].head < |v.store|
           && v.store[v.runs[r].head].tree == merged && v.runs[r].stateCommit == v.runs[r].head
  {
    hide Replayed, Named, HistoryOk, RunOk;
    StepKeeps(w, Act(r, Replay));
    OwnStepStaysOnTip(w, r, Replay);
  }

  /** A rejected push is followed by a fetch, and the fifth by the trap. */
  lemma GivesUpAtTheFifth(w: World, r: nat)
    requires Inv(w) && r in w.runs && w.runs[r].phase.Pushing?
    ensures Ok(w) && Enabled(w, Act(r, Push(Rejected)))
    ensures var v, run := Next(w, Act(r, Push(Rejected))), w.runs[r];
      && r in v.runs && v.runs[r].pushes == run.pushes + 1 && v.branch == w.branch
      && v.runs[r].phase == if run.pushes + 1 < 5 then Fetching
                            else Ended(if run.deployStatus != 0 then run.deployStatus else 1)
  {
    InvOk(w);
    WhenAPushCanLand(w, r);
    PushesSoFar(w, r);
    hide Inv;
    RejectedIs(w, r);
    hide *;
  }

  lemma RejectedIs(w: World, r: nat)
    requires Ok(w) && r in w.runs && w.runs[r].phase.Pushing? && Enabled(w, Act(r, Push(Rejected)))
    ensures var v, run := Next(w, Act(r, Push(Rejected))), w.runs[r];
      && r in v.runs && v.runs[r].pushes == run.pushes + 1 && v.branch == w.branch
      && v.runs[r].phase == if run.attempt < 5 then Fetching
                            else Ended(if run.deployStatus != 0 then run.deployStatus else 1)
  {
    hide IsAncestor, Lost;
  }

  // ---------- What a run can do, and what it commits ----------

  /** A deploy may create where no id is recorded, with an id nobody has, delete where one is, and
      edit any file. */
  lemma WhatADeployCanDo(w: World, r: nat, slot: Slot, id: string, file: string, content: Option<string>)
    requires Inv(w) && r in w.runs && w.runs[r].phase.Deploying?
    ensures Ok(w)
    ensures Enabled(w, Act(r, Create(slot, id))) <==> slot !in w.runs[r].work.state && id !in w.issued
    ensures Enabled(w, Act(r, Delete(slot))) <==> slot in w.runs[r].work.state
    ensures Enabled(w, Act(r, Edit(file, content)))
  {
    InvOk(w);
    hide Inv, IsAncestor, Clean;
  }

  /** A push can land exactly on the branch's own commit or one below the run's. */
  lemma WhenAPushCanLand(w: World, r: nat)
    requires Inv(w) && r in w.runs && w.runs[r].phase.Pushing?
    ensures Ok(w) && ValidStore(w.store) && w.runs[r].head < |w.store|
    ensures Enabled(w, Act(r, Push(Rejected)))
    ensures Enabled(w, Act(r, Push(Accepted))) <==> IsAncestor(w.store, w.branch, w.runs[r].head)
  {
    InvOk(w);
    hide Inv;
    PushNeedsAncestor(w, r, Rejected);
    PushNeedsAncestor(w, r, Accepted);
    hide *;
  }

  lemma PushNeedsAncestor(w: World, r: nat, answer: Answer)
    requires Ok(w) && r in w.runs && w.runs[r].phase.Pushing?
    ensures ValidStore(w.store) && w.branch < |w.store| && w.runs[r].head < |w.store|
    ensures Enabled(w, Act(r, Push(answer)))
            <==> (answer != Rejected ==> IsAncestor(w.store, w.branch, w.runs[r].head))
  {
    hide IsAncestor;
  }

  /** A rebase can apply exactly when the tip holds every entry that the commit changed as the commit
      found it or as it left it. */
  lemma WhenARebaseApplies(w: World, r: nat)
    requires Inv(w) && r in w.runs && w.runs[r].phase.Rebasing?
    ensures Ok(w) && ValidStore(w.store) && w.runs[r].head < |w.store| && w.runs[r].phase.tip < |w.store|
    ensures var base, ours := Parent(w.store, w.runs[r].head), w.store[w.runs[r].head].tree;
      var tip := w.store[w.runs[r].phase.tip].tree;
      Enabled(w, Act(r, Rebase))
      <==> Agrees(base.state, ours.state, tip.state) && Agrees(base.rules, ours.rules, tip.rules)
  {
    InvOk(w);
    RebaseNeedsClean(w, r);
    var run := w.runs[r];
    var base, ours, tip := Parent(w.store, run.head), w.store[run.head].tree, w.store[run.phase.tip].tree;
    hide *;
    CleanIff(base, ours, tip);
  }

  lemma RebaseNeedsClean(w: World, r: nat)
    requires Ok(w) && r in w.runs && w.runs[r].phase.Rebasing?
    ensures ValidStore(w.store) && w.runs[r].head < |w.store| && w.runs[r].phase.tip < |w.store|
    ensures Enabled(w, Act(r, Rebase))
            <==> Clean(Parent(w.store, w.runs[r].head), w.store[w.runs[r].head].tree, w.store[w.runs[r].phase.tip].tree)
  {
    hide Clean, IsAncestor;
  }

  /** What the write-back's own commit holds, entry by entry: the state as the deploy left it, and,
      when the rule files validate, the tracked files of the rules folder; everything else is as in
      the commit below it. There is no commit when that changes nothing, and `writeback_status`
      notes exactly that a changed rule file was left out. */
  lemma CommitHolds(w: World, r: nat, valid: bool, status: nat)
    requires Inv(w) && r in w.runs && w.runs[r].phase.Deploying?
    ensures Ok(w) && Enabled(w, Act(r, Action.Commit(valid, status))) && w.runs[r].base < |w.store|
    ensures var v, run := Next(w, Act(r, Action.Commit(valid, status))), w.runs[r];
      var base := w.store[run.base].tree;
      && r in v.runs && v.branch == w.branch && v.runs[r].deployStatus == status
      && (v.runs[r].status != 0 <==> !valid && exists f :: f in base.rules && RuleChanged(run, base, f))
      && if v.runs[r].phase.Pushing? then
           && v.runs[r].head == v.runs[r].stateCommit == |w.store| < |v.store|
           && v.store[|w.store|].parent == run.base && v.store[|w.store|].tree != base
           && Held(run, base, valid, v.store[|w.store|].tree)
         else
           v.runs[r].phase.Ended? && v.store == w.store && Held(run, base, valid, base)
  {
    InvOk(w);
    hide Inv, IsAncestor;
    var run := w.runs[r];
    var base := w.store[run.base].tree;
    HeldIs(run, base, valid);
    RulesChangedIff(run, base);
    hide Tracked, Held, RuleChanged;
  }

  predicate RuleChanged(run: Run, base: Tree, f: string) {
    (f == run.folder || run.folder + "/" <= f) && Get(run.work.rules, f) != Get(base.rules, f)
  }

  ghost predicate Held(run: Run, base: Tree, valid: bool, tree: Tree) {
    && tree.state == run.work.state
    && forall f :: Get(tree.rules, f)
                   == if valid && f in base.rules && RuleChanged(run, base, f) then Get(run.work.rules, f)
                      else Get(base.rules, f)
  }

  lemma HeldIs(run: Run, base: Tree, valid: bool)
    ensures Held(run, base, valid, Staged(run, base, valid))
  {
    forall f ensures Get(Staged(run, base, true).rules, f)
                     == if f in base.rules && RuleChanged(run, base, f) then Get(run.work.rules, f)
                        else Get(base.rules, f)
    {
      TrackedAt(run.folder, base.rules, run.work.rules, f);
    }
    hide Tracked;
  }

  lemma RulesChangedIff(run: Run, base: Tree)
    ensures Deliverable(run, base).rules != base.rules <==> exists f :: f in base.rules && RuleChanged(run, base, f)
  {
    var tracked := Deliverable(run, base).rules;
    forall f ensures Get(tracked, f) != Get(base.rules, f) <==> f in base.rules && RuleChanged(run, base, f) {
      TrackedAt(run.folder, base.rules, run.work.rules, f);
    }
    hide Tracked;
    if forall f :: Get(tracked, f) == Get(base.rules, f) { SameLookups(tracked, base.rules); }
  }

  // ---------- A run that nothing disturbs ----------

  /** A step of the run itself, without a failure: the job is not stopped, and a push that can land
      is accepted. A rebase may stop. */
  predicate Undisturbed(w: World, step: Step, r: nat)
    requires Ok(w) && Enabled(w, step)
  {
    step.Act? && step.r == r && !step.action.Abort? && !step.action.Exit?
    && (step.action.Push? && IsAncestor(w.store, w.branch, w.runs[r].head) ==> step.action.answer == Accepted)
  }

  /** The rule files validate and the rebase applies. */
  predicate Smooth(step: Step) {
    step.Act? ==> !step.action.StopRebase? && !(step.action.Commit? && !step.action.rulesValid)
  }

  /** The write-back has nothing to commit. */
  predicate NothingStaged(w: World, run: Run)
    requires Ok(w) && WellFormed(w.store, run)
  {
    var base := w.store[run.base].tree;
    Staged(run, base, true) == base || Staged(run, base, false) == base
  }

  /** How far an undisturbed run is: its first push may be refused, the second is on the tip. */
  predicate Calm(w: World, run: Run)
    requires Ok(w) && WellFormed(w.store, run)
  {
    match run.phase
    case Deploying => run.pushes == 0
    case Pushing => run.attempt == 1 || (run.attempt == 2 && OnTip(w, run))
    case Fetching => run.attempt == 2
    case Rebasing(_) => run.attempt == 2 && OnTip(w, run)
    case Replaying(_) => run.attempt == 2 && OnTip(w, run) && run.status == 1
    case Ended(exit) =>
      run.pushes <= 2 && exit == ScriptStatus(run, run.status) && (run.published || NothingStaged(w, run))
    case Aborted => false
  }

  /** No rule file has been left out. */
  predicate Whole(run: Run) { run.phase.Deploying? || run.status == 0 }

  ghost predicate Solo(ws: seq<World>, steps: seq<Step>, i: nat, j: nat, r: nat)
    requires Behaviour(ws, steps) && i <= j < |ws|
  {
    forall k :: i <= k < j ==> Undisturbed(ws[k], steps[k], r)
  }

  lemma DeployCalm(w: World, r: nat, action: Action)
    requires Inv(w) && Ok(w) && r in w.runs && Calm(w, w.runs[r])
    requires Ready(w, w.runs[r], action) && (action.Create? || action.Delete? || action.Edit?)
    requires Ok(DoAct(w, r, w.runs[r], action))
    ensures var v := DoAct(w, r, w.runs[r], action);
      r in v.runs && Calm(v, v.runs[r]) && v.runs[r].phase.Deploying?
  {
    hide Inv, IsAncestor, Staged;
  }

  lemma CommitCalm(w: World, r: nat, rulesValid: bool, deployStatus: nat)
    requires Inv(w) && Ok(w) && r in w.runs && Calm(w, w.runs[r])
    requires var action := Action.Commit(rulesValid, deployStatus);
      Ready(w, w.runs[r], action) && Ok(DoAct(w, r, w.runs[r], action))
    ensures var v := DoAct(w, r, w.runs[r], Action.Commit(rulesValid, deployStatus));
      r in v.runs && Calm(v, v.runs[r]) && (rulesValid ==> v.runs[r].status == 0)
  {
    hide Inv, IsAncestor, Tracked;
    var v := DoAct(w, r, w.runs[r], Action.Commit(rulesValid, deployStatus));
    var base := w.store[w.runs[r].base].tree;
    assert Staged(v.runs[r], base, rulesValid) == Staged(w.runs[r], base, rulesValid);
    assert v.runs[r].phase.Ended? ==> v.store == w.store && Staged(v.runs[r], base, rulesValid) == base;
    assert rulesValid == true || rulesValid == false;
    hide Staged;
    assert v.runs[r].phase.Ended? ==> NothingStaged(v, v.runs[r]);
  }

  lemma PushesSoFar(w: World, r: nat)
    requires Inv(w) && Ok(w) && r in w.runs && InLoop(w.runs[r].phase)
    ensures w.runs[r].pushes == w.runs[r].attempt - 1
  {
    hide HistoryOk, CommitOk, OnTopOfBranch, Reflected, DeployingOk, EndedOk;
    assert RunOk(w, w.runs[r]);
  }

  lemma PushCalm(w: World, r: nat, answer: Answer)
    requires Inv(w) && Ok(w) && r in w.runs && Calm(w, w.runs[r]) && Ready(w, w.runs[r], Push(answer))
    requires Ok(DoAct(w, r, w.runs[r], Push(answer)))
    requires IsAncestor(w.store, w.branch, w.runs[r].head) ==> answer == Accepted
    ensures var v := DoAct(w, r, w.runs[r], Push(answer));
      r in v.runs && Calm(v, v.runs[r]) && v.runs[r].status == w.runs[r].status && !v.runs[r].phase.Deploying?
  {
    hide Inv, IsAncestor, NothingStaged, Lost, Landing;
    PushesSoFar(w, r);
  }

  lemma RetryCalm(w: World, r: nat, action: Action)
    requires Inv(w) && Ok(w) && r in w.runs && Calm(w, w.runs[r]) && Ready(w, w.runs[r], action)
    requires Ok(DoAct(w, r, w.runs[r], action))
    requires action.Fetch? || action.Rebase? || action.StopRebase? || action.Replay?
    ensures var v := DoAct(w, r, w.runs[r], action);
      && r in v.runs && Calm(v, v.runs[r]) && !v.runs[r].phase.Deploying?
      && (!action.StopRebase? ==> v.runs[r].status == w.runs[r].status)
  {
    hide Inv, IsAncestor, Clean, MergeTrees, Replayed, Named, NothingStaged;
    PushesSoFar(w, r);
    OwnStepStaysOnTip(w, r, action);
  }

  lemma CalmStep(w: World, step: Step, r: nat)
    requires Inv(w) && Ok(w) && r in w.runs && Calm(w, w.runs[r])
    requires Enabled(w, step) && Undisturbed(w, step, r) && Ok(Next(w, step))
    ensures var v := Next(w, step);
      r in v.runs && Calm(v, v.runs[r]) && (Smooth(step) && Whole(w.runs[r]) ==> Whole(v.runs[r]))
  {
    hide Inv, Calm, IsAncestor;
    match step.action {
      case Create(_, _) => DeployCalm(w, r, step.action);
      case Delete(_) => DeployCalm(w, r, step.action);
      case Edit(_, _) => DeployCalm(w, r, step.action);
      case Commit(valid, status) => CommitCalm(w, r, valid, status);
      case Push(answer) => PushCalm(w, r, answer);
      case Fetch => RetryCalm(w, r, Fetch);
      case Rebase => RetryCalm(w, r, Rebase);
      case StopRebase => RetryCalm(w, r, StopRebase);
      case Replay => RetryCalm(w, r, Action.Replay);
      case Abort => assert false;
      case Exit(_) => assert false;
    }
    hide Next, Enabled;
  }

  /** A run that nothing disturbs from some point of its deploy on publishes when it has anything to
      commit, with at most two pushes, and its status is the deploy's when that failed; it is 0 when
      the deploy succeeded, the rule files validate and no rebase stops. */
  lemma {:induction false} UndisturbedPublishes(ws: seq<World>, steps: seq<Step>, i: nat, j: nat, r: nat)
    requires Behaviour(ws, steps) && i <= j < |ws| && Solo(ws, steps, i, j, r)
    requires r in ws[i].runs && ws[i].runs[r].phase.Deploying?
    ensures Ok(ws[j]) && r in ws[j].runs && WellFormed(ws[j].store, ws[j].runs[r]) && Calm(ws[j], ws[j].runs[r])
    ensures ws[j].runs[r].phase.Ended? ==>
      var run := ws[j].runs[r];
      && (run.published || NothingStaged(ws[j], run)) && run.pushes <= 2
      && (run.deployStatus != 0 ==> run.phase.exit == run.deployStatus)
      && (run.deployStatus == 0 && (forall k :: i <= k < j ==> Smooth(steps[k])) ==> run.phase.exit == 0)
    ensures (forall k :: i <= k < j ==> Smooth(steps[k])) ==> Whole(ws[j].runs[r])
    decreases j
  {
    hide Next, Enabled, Inv, OnTip, Smooth, NothingStaged;
    Safe(ws, steps, j);
    InvOk(ws[j]);
    if i == j {
      StartsCalm(ws[j], r);
    } else {
      Safe(ws, steps, j - 1);
      InvOk(ws[j - 1]);
      UndisturbedPublishes(ws, steps, i, j - 1, r);
      CalmStep(ws[j - 1], steps[j - 1], r);
    }
  }

  lemma StartsCalm(w: World, r: nat)
    requires Inv(w) && Ok(w) && r in w.runs && w.runs[r].phase.Deploying?
    ensures WellFormed(w.store, w.runs[r]) && Calm(w, w.runs[r])
  {
    assert RunOk(w, w.runs[r]);
  }

  /** Until it has ended such a run can always take a step that does not disturb it. */
  lemma NeverStuck(w: World, r: nat) returns (action: Action)
    requires Inv(w) && r in w.runs && !w.runs[r].phase.Ended? && !w.runs[r].phase.Aborted?
    ensures Ok(w) && Enabled(w, Act(r, action)) && Undisturbed(w, Act(r, action), r) && !action.Edit?
  {
    InvOk(w);
    match w.runs[r].phase {
      case Deploying => action := Action.Commit(true, 0);
      case Pushing => action := Push(if IsAncestor(w.store, w.branch, w.runs[r].head) then Accepted else Rejected);
      case Fetching => action := Fetch;
      case Rebasing(_) => action := StopRebase;
      case Replaying(_) => action := Action.Replay;
    }
  }

  // ---------- What a run has done lands ----------

  predicate TouchesSlot(step: Step, r: nat, slot: Slot) {
    step.Act? && step.r == r
    && ((step.action.Create? && step.action.slot == slot) || (step.action.Delete? && step.action.slot == slot))
  }

  predicate TouchesFile(step: Step, r: nat, file: string) {
    step.Act? && step.r == r && step.action.Edit? && step.action.file == file
  }

  lemma WorkStep(w: World, step: Step, r: nat)
    requires Ok(w) && r in w.runs && Enabled(w, step)
    ensures var v := Next(w, step);
      && r in v.runs
      && (forall s :: !TouchesSlot(step, r, s) ==> Get(v.runs[r].work.state, s) == Get(w.runs[r].work.state, s))
      && (forall f :: !TouchesFile(step, r, f) ==> Get(v.runs[r].work.rules, f) == Get(w.runs[r].work.rules, f))
    ensures var v := Next(w, step);
      && (forall s, id :: step == Act(r, Create(s, id)) ==> r in v.runs && Get(v.runs[r].work.state, s) == Some(id))
      && (forall s :: step == Act(r, Delete(s)) ==> r in v.runs && Get(v.runs[r].work.state, s) == None)
      && (forall f, c :: step == Act(r, Edit(f, c)) ==> r in v.runs && Get(v.runs[r].work.rules, f) == c)
  {
    if IsForeign(r, step) { ForeignKeeps(w, step, r); } else { OwnWork(w, r, step.action); }
    hide Next, Enabled;
  }

  lemma OwnWork(w: World, r: nat, action: Action)
    requires Ok(w) && r in w.runs && Ready(w, w.runs[r], action)
    ensures var v := DoAct(w, r, w.runs[r], action);
      && r in v.runs
      && v.runs[r].work == match action
         case Create(s, id) => w.runs[r].work.(state := w.runs[r].work.state[s := id])
         case Delete(s) => w.runs[r].work.(state := w.runs[r].work.state - {s})
         case Edit(f, c) =>
           var rules := w.runs[r].work.rules;
           w.runs[r].work.(rules := if c.Some? then rules[f := c.value] else rules - {f})
         case _ => w.runs[r].work
  {
    hide IsAncestor, Clean, MergeTrees, Replayed, Named, Lost, Staged, Deliverable, ScriptStatus;
  }

  lemma {:induction false} SlotStays(ws: seq<World>, steps: seq<Step>, k: nat, j: nat, r: nat, slot: Slot)
    requires Behaviour(ws, steps) && k <= j < |ws| && r in ws[k].runs
    requires forall n :: k <= n < j ==> !TouchesSlot(steps[n], r, slot)
    ensures r in ws[j].runs && Get(ws[j].runs[r].work.state, slot) == Get(ws[k].runs[r].work.state, slot)
    decreases j
  {
    hide Next, Enabled, Ok, TouchesSlot;
    if k < j {
      SlotStays(ws, steps, k, j - 1, r, slot);
      WorkStep(ws[j - 1], steps[j - 1], r);
    }
  }

  lemma {:induction false} FileStays(ws: seq<World>, steps: seq<Step>, k: nat, j: nat, r: nat, file: string)
    requires Behaviour(ws, steps) && k <= j < |ws| && r in ws[k].runs
    requires forall n :: k <= n < j ==> !TouchesFile(steps[n], r, file)
    ensures r in ws[j].runs && Get(ws[j].runs[r].work.rules, file) == Get(ws[k].runs[r].work.rules, file)
    decreases j
  {
    hide Next, Enabled, Ok, TouchesFile;
    if k < j {
      FileStays(ws, steps, k, j - 1, r, file);
      WorkStep(ws[j - 1], steps[j - 1], r);
    }
  }

  /** When a run ends with status 0, the last create or delete that its deploy made at a place has
      been on the branch since the overlay was taken. */
  lemma LastActionLands(ws: seq<World>, steps: seq<Step>, i: nat, k: nat, j: nat, r: nat, trigger: nat, folder: string,
                        slot: Slot, id: Option<string>)
    requires Behaviour(ws, steps) && i < k < j < |ws| && steps[i] == Start(r, trigger, folder)
    requires steps[k] == Act(r, if id.Some? then Create(slot, id.value) else Delete(slot))
    requires forall n :: k < n < j ==> !TouchesSlot(steps[n], r, slot)
    requires r in ws[j].runs && ws[j].runs[r].phase == Ended(0)
    ensures Ok(ws[i]) && Ok(ws[j]) && StateLanded(ws[j], ws[i].branch, slot, id)
  {
    hide Next, Enabled, TouchesSlot, StateLanded, RuleLanded;
    Safe(ws, steps, i);
    InvOk(ws[i]);
    ActsAsItself(ws[k], steps[k]);
    WorkStep(ws[k], steps[k], r);
    SlotStays(ws, steps, k + 1, j, r, slot);
    ExitStatus(ws, steps, i, j, r, trigger, folder);
    AllLater(ws, steps, i, j);
    OriginHolds(ws[i], ws[j], slot);
  }

  lemma ActsAsItself(w: World, step: Step)
    requires Ok(w) && Enabled(w, step) && step.Act?
    ensures step.r in w.runs
  {
  }

  lemma OriginHolds(w: World, v: World, slot: Slot)
    requires Ok(w) && Ok(v) && Later(w, v)
    ensures StateLanded(v, w.branch, slot, Get(Tip(w).state, slot))
  {
    assert IsAncestor(v.store, w.branch, w.branch);
    assert Follows(v, w.branch, w.branch) && v.store[w.branch] == w.store[w.branch];
  }

  /** And so has the last edit of a tracked file of the rules folder, where it changed the file. */
  lemma LastEditLands(ws: seq<World>, steps: seq<Step>, i: nat, k: nat, j: nat, r: nat, trigger: nat, folder: string,
                      file: string, content: Option<string>)
    requires Behaviour(ws, steps) && i < k < j < |ws| && steps[i] == Start(r, trigger, folder)
    requires steps[k] == Act(r, Edit(file, content)) && folder + "/" <= file
    requires trigger < |ws[i].store| && file in ws[i].store[trigger].tree.rules
    requires content != Some(ws[i].store[trigger].tree.rules[file])
    requires forall n :: k < n < j ==> !TouchesFile(steps[n], r, file)
    requires r in ws[j].runs && ws[j].runs[r].phase == Ended(0)
    ensures Ok(ws[i]) && Ok(ws[j]) && RuleLanded(ws[j], ws[i].branch, file, content)
  {
    hide Next, Enabled, TouchesFile, StateLanded, RuleLanded;
    Safe(ws, steps, i);
    InvOk(ws[i]);
    ActsAsItself(ws[k], steps[k]);
    WorkStep(ws[k], steps[k], r);
    FileStays(ws, steps, k + 1, j, r, file);
    ExitStatus(ws, steps, i, j, r, trigger, folder);
  }

  // ---------- What a record means ----------

  /** Where a new record comes from: `deleted` from a delete of that very binding, `byHand` from a
      merge that drops it from the branch, `named` from a commit that lands and has named it,
      `logged` from its create, and `offered` from a run that gives up and whose state commit added it. */
  lemma RecordsAreEarned(w: World, step: Step, m: Bound)
    requires Inv(w) && Ok(w) && Enabled(w, step)
    ensures var v := Next(w, step).ledger;
      && (m in v.deleted && m !in w.ledger.deleted ==>
            step.Act? && step.action == Delete(m.slot) && Has(w.runs[step.r].work, m))
      && (m in v.byHand && m !in w.ledger.byHand ==> step.Merge? && Has(Tip(w), m) && !Has(step.tree, m))
      && (m in v.logged && m !in w.ledger.logged ==> step.Act? && step.action == Create(m.slot, m.id))
    ensures var v := Next(w, step).ledger;
      && (m in v.named && m !in w.ledger.named ==>
            && step.Act? && step.action.Push? && step.action.answer != Rejected && w.runs[step.r].head < |w.store|
            && m in w.store[w.runs[step.r].head].named)
      && (m in v.offered && m !in w.ledger.offered ==>
            && step.Act? && (step.action.Exit? || step.action.Push?) && w.runs[step.r].stateCommit < |w.store|
            && Has(w.store[w.runs[step.r].stateCommit].tree, m)
            && !Has(Parent(w.store, w.runs[step.r].stateCommit), m))
  {
    hide Inv, IsAncestor, Clean, MergeTrees, Replayed, Named, Staged, Deliverable, ScriptStatus;
    if step.Act? { ActRecords(w, step.r, step.action, m); }
    hide DoAct, Ready;
  }

  lemma ActRecords(w: World, r: nat, action: Action, m: Bound)
    requires Ok(w) && r in w.runs && Ready(w, w.runs[r], action)
    ensures var v, run := DoAct(w, r, w.runs[r], action).ledger, w.runs[r];
      && (m in v.deleted && m !in w.ledger.deleted ==> action == Delete(m.slot) && Has(run.work, m))
      && v.byHand == w.ledger.byHand
      && (m in v.logged && m !in w.ledger.logged ==> action == Create(m.slot, m.id))
      && (m in v.named && m !in w.ledger.named ==>
            action.Push? && action.answer != Rejected && run.head < |w.store| && m in w.store[run.head].named)
      && (m in v.offered && m !in w.ledger.offered ==>
            && (action.Exit? || action.Push?) && run.stateCommit < |w.store|
            && Has(w.store[run.stateCommit].tree, m) && !Has(Parent(w.store, run.stateCommit), m))
  {
    hide IsAncestor, Clean, MergeTrees, Replayed, Named, Staged, Deliverable, ScriptStatus, Parent;
  }
}
