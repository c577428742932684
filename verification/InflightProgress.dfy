/** That the inflight push loop gets somewhere: a retry is on top of the branch as it was fetched,
    and a job that nothing disturbs ends with status 0. */
module InflightProgress {
  import opened Options
  import opened GitStore
  import opened Inflight

  predicate IsForeign(j: nat, step: Step) {
    match step case Begin(q, _, _) => q != j case Act(q, _) => q != j case Merge(_) => true
  }

  /** What the job goes by is the branch as it is. */
  predicate OnTip(w: World, job: Job)
    requires Ok(w) && WellFormed(w.store, job)
  {
    match job.phase
    case Rebasing(tip) => tip == w.branch
    case Pushing => IsAncestor(w.store, w.branch, job.head)
    case _ => true
  }

  predicate AtWork(phase: Phase) { InLoop(phase) || phase.Ended? }

  lemma InvOk(w: World)
    requires Inv(w)
    ensures Ok(w) && forall j :: j in w.jobs ==> WellFormed(w.store, w.jobs[j])
  {
  }

  lemma ForeignStaysOnTip(w: World, step: Step, j: nat)
    requires Ok(w) && j in w.jobs && IsForeign(j, step) && Enabled(w, step) && Ok(Next(w, step))
    requires OnTip(w, w.jobs[j]) && Next(w, step).branch == w.branch
    ensures j in Next(w, step).jobs && Next(w, step).jobs[j] == w.jobs[j] && OnTip(Next(w, step), w.jobs[j])
  {
    hide IsAncestor, MergeTrees, WithShards, IsShard, SamePatch, Clean;
    var v := Next(w, step);
    assert w.store <= v.store;
    AncestorInLongerStore(w.store, v.store, w.branch, w.jobs[j].head);
  }

  lemma OwnStepStaysOnTip(w: World, j: nat, action: Action)
    requires Ok(w) && j in w.jobs && AtWork(w.jobs[j].phase) && OnTip(w, w.jobs[j])
    requires Ready(w, w.jobs[j], action) && Ok(DoAct(w, j, w.jobs[j], action))
    requires DoAct(w, j, w.jobs[j], action).branch == w.branch
    ensures var v := DoAct(w, j, w.jobs[j], action);
      j in v.jobs && AtWork(v.jobs[j].phase) && OnTip(v, v.jobs[j])
  {
    hide MergeTrees, Clean, SamePatch;
    var v := DoAct(w, j, w.jobs[j], action);
    if |v.store| > |w.store| {
      assert v.store[|w.store|].parent == w.branch;
      assert IsAncestor(v.store, w.branch, w.branch);
    }
  }

  lemma OneStepOnTip(w: World, step: Step, j: nat)
    requires Ok(w) && Enabled(w, step) && Ok(Next(w, step))
    requires j in w.jobs && AtWork(w.jobs[j].phase) && OnTip(w, w.jobs[j]) && Next(w, step).branch == w.branch
    ensures var v := Next(w, step);
      j in v.jobs && AtWork(v.jobs[j].phase) && OnTip(v, v.jobs[j])
  {
    hide DoAct, OnTip, Ready, DoBegin;
    if IsForeign(j, step) { ForeignStaysOnTip(w, step, j); } else { OwnStepStaysOnTip(w, j, step.action); }
  }

  lemma {:induction false} StaysOnTip(ws: seq<World>, steps: seq<Step>, i: nat, k: nat, j: nat)
    requires Behaviour(ws, steps) && i < k < |ws| && steps[i] == Act(j, Fetch)
    requires forall n :: i <= n <= k ==> ws[n].branch == ws[i].branch
    ensures Ok(ws[k]) && j in ws[k].jobs && AtWork(ws[k].jobs[j].phase) && OnTip(ws[k], ws[k].jobs[j])
    decreases k
  {
    hide Next, Enabled, Inv, OnTip;
    Safe(ws, steps, k - 1);
    Safe(ws, steps, k);
    InvOk(ws[k - 1]);
    InvOk(ws[k]);
    if i < k - 1 { StaysOnTip(ws, steps, i, k - 1, j); } else { FetchingOnTip(ws[i], j); }
    OneStepOnTip(ws[k - 1], steps[k - 1], j);
  }

  lemma FetchingOnTip(w: World, j: nat)
    requires Ok(w) && Enabled(w, Act(j, Fetch))
    ensures j in w.jobs && AtWork(w.jobs[j].phase) && OnTip(w, w.jobs[j])
  {
  }

  /** Once a job has fetched, then as long as nobody moves the branch its next push can land, and
      landing it ends the job with status 0. */
  lemma RetryCanLand(ws: seq<World>, steps: seq<Step>, i: nat, k: nat, j: nat)
    requires Behaviour(ws, steps) && i < k < |ws| && steps[i] == Act(j, Fetch)
    requires forall n :: i <= n <= k ==> ws[n].branch == ws[i].branch
    requires j in ws[k].jobs && ws[k].jobs[j].phase.Pushing?
    ensures Ok(ws[k]) && Enabled(ws[k], Act(j, Push(Accepted)))
    ensures var v := Next(ws[k], Act(j, Push(Accepted)));
      v.branch == ws[k].jobs[j].head && j in v.jobs && v.jobs[j].phase == Ended(0)
  {
    StaysOnTip(ws, steps, i, k, j);
  }

  // ---------- A job that nothing disturbs ----------

  /** A step of the job itself, without a failure; a push that can land is accepted. */
  ghost predicate Undisturbed(w: World, step: Step, j: nat)
    requires Ok(w) && Enabled(w, step)
  {
    step.Act? && step.j == j && !step.action.Exit?
    && (step.action.Push? && IsAncestor(w.store, w.branch, w.jobs[j].head) ==> step.action.answer == Accepted)
  }

  /** How far it is: its first push may be refused, the second is on the tip. */
  predicate Calm(w: World, job: Job)
    requires Ok(w) && WellFormed(w.store, job)
  {
    match job.phase
    case Working => job.pushes == 0
    case Pushing => job.attempt == 1 || (job.attempt == 2 && OnTip(w, job))
    case Fetching => job.attempt == 2
    case Rebasing(_) => job.attempt == 2 && OnTip(w, job)
    case Ended(exit) => exit == 0 && job.pushes <= 2
  }

  lemma PushesSoFar(w: World, j: nat)
    requires Inv(w) && Ok(w) && j in w.jobs && InLoop(w.jobs[j].phase)
    ensures w.jobs[j].pushes == w.jobs[j].attempt - 1
  {
    hide Carries, Holds, OwnCommit, Dropped, AllLanded;
    assert JobOk(w, w.jobs[j]);
  }

  lemma CalmStep(w: World, step: Step, j: nat)
    requires Inv(w) && Ok(w) && j in w.jobs && Calm(w, w.jobs[j])
    requires Enabled(w, step) && Undisturbed(w, step, j) && Ok(Next(w, step))
    ensures j in Next(w, step).jobs && Calm(Next(w, step), Next(w, step).jobs[j])
  {
    hide Inv;
    var action := step.action;
    if action.Fetch? || action.Rebase? || action.SkipApplied? { OwnStepStaysOnTip(w, j, action); }
    if InLoop(w.jobs[j].phase) { PushesSoFar(w, j); }
    hide IsAncestor, MergeTrees, Clean, SamePatch, WithShards;
  }

  /** A job that nothing disturbs from its edits on ends with status 0 and at most two pushes. */
  lemma {:induction false} UndisturbedEndsWell(ws: seq<World>, steps: seq<Step>, i: nat, k: nat, j: nat)
    requires Behaviour(ws, steps) && i <= k < |ws|
    requires forall n :: i <= n < k ==> Undisturbed(ws[n], steps[n], j)
    requires j in ws[i].jobs && ws[i].jobs[j].phase.Working?
    ensures Ok(ws[k]) && j in ws[k].jobs && WellFormed(ws[k].store, ws[k].jobs[j]) && Calm(ws[k], ws[k].jobs[j])
    ensures ws[k].jobs[j].phase.Ended? ==> ws[k].jobs[j].phase == Ended(0) && ws[k].jobs[j].pushes <= 2
    decreases k
  {
    hide Next, Enabled, Inv, OnTip;
    Safe(ws, steps, k);
    InvOk(ws[k]);
    if i == k {
      assert JobOk(ws[i], ws[i].jobs[j]) by { StillWorkingOk(ws[i], j); }
    } else {
      Safe(ws, steps, k - 1);
      InvOk(ws[k - 1]);
      UndisturbedEndsWell(ws, steps, i, k - 1, j);
      CalmStep(ws[k - 1], steps[k - 1], j);
    }
  }

  lemma StillWorkingOk(w: World, j: nat)
    requires Inv(w) && Ok(w) && j in w.jobs
    ensures WellFormed(w.store, w.jobs[j]) && JobOk(w, w.jobs[j])
  {
  }

  /** Until it has ended such a job can take a step, unless a rebase does not apply: a shard that it
      changed has been changed to something else. */
  lemma NeverStuck(w: World, j: nat) returns (action: Action)
    requires Inv(w) && j in w.jobs && !w.jobs[j].phase.Ended?
    requires var job := w.jobs[j];
      job.phase.Rebasing? && Ok(w) && WellFormed(w.store, job)
      ==> Clean(Parent(w.store, job.head), w.store[job.head].tree, w.store[job.phase.tip].tree)
    ensures Ok(w) && Enabled(w, Act(j, action)) && Undisturbed(w, Act(j, action), j) && !action.Edit?
  {
    InvOk(w);
    match w.jobs[j].phase {
      case Working => action := Publish;
      case Pushing => action := Push(if IsAncestor(w.store, w.branch, w.jobs[j].head) then Accepted else Rejected);
      case Fetching => action := Fetch;
      case Rebasing(_) => action := Rebase;
    }
  }

  // ---------- What a job has done lands ----------

  predicate Touches(step: Step, j: nat, f: string) {
    step.Act? && step.j == j && step.action.Edit? && step.action.file == f
  }

  lemma WorkStep(w: World, step: Step, j: nat, f: string)
    requires Ok(w) && j in w.jobs && Enabled(w, step)
    ensures var v := Next(w, step);
      && j in v.jobs && v.jobs[j].base == w.jobs[j].base && w.store <= v.store
      && Get(v.jobs[j].work, f) == if Touches(step, j, f) then step.action.content else Get(w.jobs[j].work, f)
  {
    if step.Act? { ActOnJob(w, step.j, step.action, j); }
    hide DoAct, Ready, WithShards, IsAncestor;
  }

  lemma ActOnJob(w: World, q: nat, action: Action, j: nat)
    requires Ok(w) && q in w.jobs && j in w.jobs && Ready(w, w.jobs[q], action)
    ensures var v := DoAct(w, q, w.jobs[q], action);
      && j in v.jobs && w.store <= v.store && v.jobs[j].base == w.jobs[j].base
      && v.jobs[j].work == if q != j then w.jobs[j].work
                           else match action
                             case Edit(f, content) =>
                               if content.Some? then w.jobs[j].work[f := content.value] else w.jobs[j].work - {f}
                             case _ => w.jobs[j].work
  {
    hide IsAncestor, MergeTrees, WithShards, IsShard, SamePatch, Clean;
  }

  lemma {:induction false} FileStays(ws: seq<World>, steps: seq<Step>, k: nat, n: nat, j: nat, f: string)
    requires Behaviour(ws, steps) && k <= n < |ws| && j in ws[k].jobs && Ok(ws[k]) && ws[k].jobs[j].base < |ws[k].store|
    requires forall m :: k <= m < n ==> !Touches(steps[m], j, f)
    ensures j in ws[n].jobs && Get(ws[n].jobs[j].work, f) == Get(ws[k].jobs[j].work, f)
    ensures ws[n].jobs[j].base == ws[k].jobs[j].base && ws[k].store <= ws[n].store
    decreases n
  {
    hide Next, Enabled, Ok, Touches;
    if k < n {
      FileStays(ws, steps, k, n - 1, j, f);
      WorkStep(ws[n - 1], steps[n - 1], j, f);
    }
  }

  /** When a job ends with status 0, the last edit of a shard that it made, a removal included, has
      been on the branch since the commit its shards were copied from, where it changed the shard. */
  lemma LastEditLands(ws: seq<World>, steps: seq<Step>, k: nat, n: nat, j: nat, f: string, content: Option<string>)
    requires Behaviour(ws, steps) && k < n < |ws| && steps[k] == Act(j, Edit(f, content))
    requires forall m :: k < m < n ==> !Touches(steps[m], j, f)
    requires j in ws[n].jobs && ws[n].jobs[j].phase == Ended(0) && ".opentide/inflight/" <= f
    ensures Ok(ws[n]) && ws[n].jobs[j].base < |ws[n].store|
    ensures content != Get(ws[n].store[ws[n].jobs[j].base].tree.rules, f)
            ==> Landed(ws[n], ws[n].jobs[j].base, f, content)
  {
    hide Next, Enabled, Landed;
    Safe(ws, steps, k + 1);
    InvOk(ws[k + 1]);
    ActsAsItself(ws[k], steps[k]);
    WorkStep(ws[k], steps[k], j, f);
    FileStays(ws, steps, k + 1, n, j, f);
    ExitZeroMeansPublished(ws, steps, n, j, f);
  }

  lemma ActsAsItself(w: World, step: Step)
    requires Ok(w) && Enabled(w, step) && step.Act?
    ensures step.j in w.jobs
  {
  }

  /** A rejected push is followed by a fetch, and the fifth by the end of the job. */
  lemma GivesUpAtTheFifth(w: World, j: nat)
    requires Inv(w) && j in w.jobs && w.jobs[j].phase.Pushing?
    ensures Ok(w) && Enabled(w, Act(j, Push(Rejected)))
    ensures var v, job := Next(w, Act(j, Push(Rejected))), w.jobs[j];
      && j in v.jobs && v.jobs[j].pushes == job.pushes + 1 && v.branch == w.branch
      && v.jobs[j].phase == if job.pushes + 1 < 5 then Fetching else Ended(1)
  {
    InvOk(w);
    PushesSoFar(w, j);
    hide Inv, IsAncestor;
  }

  // ---------- What a job can do, and what it commits ----------

  /** The job's commit holds the shards of its checkout and, for every other file and the deployment
      state, what the commit its shards were copied from holds; there is none when that is the same. */
  lemma PublishHolds(w: World, j: nat)
    requires Inv(w) && j in w.jobs && w.jobs[j].phase.Working?
    ensures Ok(w) && Enabled(w, Act(j, Publish)) && w.jobs[j].base < |w.store|
    ensures var v, job := Next(w, Act(j, Publish)), w.jobs[j];
      var base := w.store[job.base].tree;
      && j in v.jobs && v.branch == w.branch
      && if v.jobs[j].phase.Pushing? then
           && v.jobs[j].head == |w.store| < |v.store| && v.store[|w.store|].parent == job.base
           && v.store[|w.store|].tree != base && Published(job.work, base, v.store[|w.store|].tree)
         else
           v.jobs[j].phase == Ended(0) && v.store == w.store && Published(job.work, base, base)
  {
    InvOk(w);
    hide Inv;
    ShardsPublished(w.jobs[j].work, w.store[w.jobs[j].base].tree);
    hide WithShards, Published;
  }

  ghost predicate Published(work: Files, base: Tree, tree: Tree) {
    && tree.state == base.state
    && forall f :: Get(tree.rules, f) == if ".opentide/inflight/" <= f then Get(work, f) else Get(base.rules, f)
  }

  lemma ShardsPublished(work: Files, base: Tree)
    ensures Published(work, base, base.(rules := WithShards(base.rules, work)))
  {
    forall f ensures Get(WithShards(base.rules, work), f)
                     == if ".opentide/inflight/" <= f then Get(work, f) else Get(base.rules, f)
    {
      WithShardsAt(base.rules, work, f);
    }
    hide WithShards;
  }

  /** From the rejection on, beside a still branch: a rebase that applies ends at a push that can
      land, of the job's change merged onto the branch, or of the branch itself when that holds the
      job's commit already. */
  lemma RetryReachesThePush(w: World, j: nat)
    requires Inv(w) && j in w.jobs && w.jobs[j].phase.Fetching?
    ensures Ok(w) && Enabled(w, Act(j, Fetch)) && w.jobs[j].head < |w.store|
    ensures var fetched := Next(w, Act(j, Fetch));
      && Ok(fetched)
      && (Enabled(fetched, Act(j, Rebase)) ==>
            var v, job := Next(fetched, Act(j, Rebase)), w.jobs[j];
            && Ok(v) && v.branch == w.branch && Enabled(v, Act(j, Push(Accepted)))
            && v.store[v.jobs[j].head].tree
               == if IsAncestor(w.store, job.head, w.branch) then Tip(w)
                  else MergeTrees(Parent(w.store, job.head), w.store[job.head].tree, Tip(w)))
  {
    InvOk(w);
    FetchingOnTip(w, j);
    StepKeeps(w, Act(j, Fetch));
    var fetched := Next(w, Act(j, Fetch));
    InvOk(fetched);
    if Enabled(fetched, Act(j, Rebase)) {
      StepKeeps(fetched, Act(j, Rebase));
      InvOk(Next(fetched, Act(j, Rebase)));
      OwnStepStaysOnTip(fetched, j, Rebase);
    }
    hide Inv, MergeTrees, Clean, IsAncestor, SamePatch;
  }

  /** A job edits what it likes before it publishes; a push can land exactly on the branch's own
      commit or one below the job's; and a rebase can apply exactly when HEAD is on the tip already,
      or the tip holds every entry that the commit changed as the commit found it or as it left it. */
  lemma WhatAJobCanDo(w: World, j: nat, f: string, content: Option<string>)
    requires Inv(w) && j in w.jobs
    ensures Ok(w) && ValidStore(w.store) && WellFormed(w.store, w.jobs[j])
    ensures w.jobs[j].phase.Working? ==> Enabled(w, Act(j, Edit(f, content)))
    ensures w.jobs[j].phase.Pushing?
            ==> (Enabled(w, Act(j, Push(Accepted))) <==> IsAncestor(w.store, w.branch, w.jobs[j].head))
    ensures w.jobs[j].phase.Rebasing? ==>
      var job := w.jobs[j];
      var base, ours, tip := Parent(w.store, job.head), w.store[job.head].tree, w.store[job.phase.tip].tree;
      Enabled(w, Act(j, Rebase))
      <==> || IsAncestor(w.store, job.head, job.phase.tip)
           || (Agrees(base.state, ours.state, tip.state) && Agrees(base.rules, ours.rules, tip.rules))
  {
    InvOk(w);
    var job := w.jobs[j];
    if job.phase.Rebasing? { CleanIff(Parent(w.store, job.head), w.store[job.head].tree, w.store[job.phase.tip].tree); }
    hide Inv, Clean, IsAncestor, Agrees;
  }
}
