/** The jobs that publish and prune the inflight preview shards (src/opentide/ci/inflight.py): a
    file-level instance of the push loop, any number of jobs racing to one default branch. */
module Inflight {
  import opened Options
  import opened ThreeWay
  import opened GitStore

  type Files = map<string, string>

  const PUSH_ATTEMPTS := 5

  /** A path under `.opentide/inflight/`. */
  predicate IsShard(f: string) { ".opentide/inflight/" <= f }

  datatype Phase = Working | Pushing | Fetching | Rebasing(tip: nat) | Ended(exit: nat)

  datatype Job = Job(
    base: nat,        // the commit the shards were copied from
    work: Files,      // the job's checkout
    phase: Phase,
    committed: bool,
    first: nat,       // the commit before any rebase
    head: nat,
    attempt: nat,
    pushes: nat
  )

  datatype World = World(store: Store, branch: nat, jobs: map<nat, Job>)

  datatype Answer = Accepted | Rejected | AcceptedButReportedRejected

  datatype Action =
    | Edit(file: string, content: Option<string>)
    | Publish
    | Push(answer: Answer)
    | Fetch
    | Rebase
    | SkipApplied(twin: nat)
    | Exit(code: nat)

  datatype Step =
    | Begin(j: nat, base: nat, checkout: Files)
    | Act(j: nat, action: Action)
    | Merge(tree: Tree)

  predicate InLoop(p: Phase) { p.Pushing? || p.Fetching? || p.Rebasing? }

  predicate WellFormed(store: Store, job: Job) {
    job.base < |store| && job.first < |store| && job.head < |store| && (job.phase.Rebasing? ==> job.phase.tip < |store|)
  }

  ghost predicate Ok(w: World) {
    ValidStore(w.store) && w.branch < |w.store| && forall j :: j in w.jobs ==> WellFormed(w.store, w.jobs[j])
  }

  predicate OnBranch(w: World, c: nat)
    requires Ok(w)
  {
    IsAncestor(w.store, c, w.branch)
  }

  function Parent(store: Store, c: nat): Tree
    requires ValidStore(store) && c < |store|
  {
    store[store[c].parent].tree
  }

  /** The two commits make the same change, which is what lets `git rebase` skip one of them. It
      looks among the commits of the tip that HEAD does not have. */
  ghost predicate SamePatch(store: Store, a: nat, b: nat)
    requires ValidStore(store) && a < |store| && b < |store|
  {
    forall f ::
      && (Get(Parent(store, a).rules, f) != Get(store[a].tree.rules, f)
          <==> Get(Parent(store, b).rules, f) != Get(store[b].tree.rules, f))
      && (Get(Parent(store, a).rules, f) != Get(store[a].tree.rules, f)
          ==> Get(store[a].tree.rules, f) == Get(store[b].tree.rules, f))
  }

  ghost predicate Ready(w: World, job: Job, action: Action)
    requires Ok(w) && WellFormed(w.store, job)
  {
    match action
    case Edit(_, _) => job.phase.Working?
    case Publish => job.phase.Working?
    case Push(answer) => job.phase.Pushing? && (answer != Rejected ==> IsAncestor(w.store, w.branch, job.head))
    case Fetch => job.phase.Fetching?
    case Rebase =>
      job.phase.Rebasing?
      && (IsAncestor(w.store, job.head, job.phase.tip)
          || Clean(Parent(w.store, job.head), w.store[job.head].tree, w.store[job.phase.tip].tree))
    case SkipApplied(twin) =>
      && job.phase.Rebasing? && twin < |w.store| && IsAncestor(w.store, twin, job.phase.tip)
      && !IsAncestor(w.store, twin, job.head) && SamePatch(w.store, twin, job.head)
    case Exit(code) => (job.phase.Working? || InLoop(job.phase)) && code > 0
  }

  ghost predicate Enabled(w: World, step: Step)
    requires Ok(w)
  {
    match step
    case Begin(j, base, _) => j !in w.jobs && base < |w.store| && OnBranch(w, base)
    case Act(j, action) => j in w.jobs && Ready(w, w.jobs[j], action)
    case Merge(_) => true
  }

  /** The files of `rest` outside the shard folder, with the shards of `shards`. */
  function WithShards(rest: Files, shards: Files): Files {
    map f | f in rest.Keys + shards.Keys && Get(if IsShard(f) then shards else rest, f).Some?
      :: Get(if IsShard(f) then shards else rest, f).value
  }

  function With(w: World, j: nat, job: Job): World { w.(jobs := w.jobs[j := job]) }

  function Add(w: World, c: GitStore.Commit): World { w.(store := w.store + [c]) }

  /** The worktree commit: the copied-from commit with the job's shards (`_publish_on_default_branch`,
      `_commit_and_push`). */
  function DoPublish(w: World, j: nat, job: Job): World
    requires job.base < |w.store|
  {
    var base := w.store[job.base].tree;
    var tree := base.(rules := WithShards(base.rules, job.work));
    if tree == base then With(w, j, job.(phase := Ended(0)))
    else
      var c := |w.store|;
      With(Add(w, GitStore.Commit(job.base, tree, {})), j,
           job.(phase := Pushing, committed := true, first := c, head := c, attempt := 1))
  }

  function AfterRejection(job: Job): Job {
    if job.attempt >= PUSH_ATTEMPTS then job.(phase := Ended(1))
    else job.(attempt := job.attempt + 1, phase := Fetching)
  }

  function DoPush(w: World, j: nat, job0: Job, answer: Answer): World {
    var job := job0.(pushes := job0.pushes + 1);
    match answer
    case Accepted => With(w.(branch := job.head), j, job.(phase := Ended(0)))
    case Rejected => With(w, j, AfterRejection(job))
    case AcceptedButReportedRejected => With(w.(branch := job.head), j, AfterRejection(job))
  }

  /** `git rebase FETCH_HEAD`: a commit that is on the tip already, or leaves nothing to commit, is dropped. */
  function DoRebase(w: World, j: nat, job: Job): World
    requires ValidStore(w.store) && WellFormed(w.store, job) && job.phase.Rebasing?
  {
    var tip := job.phase.tip;
    var tree := MergeTrees(Parent(w.store, job.head), w.store[job.head].tree, w.store[tip].tree);
    if IsAncestor(w.store, job.head, tip) || tree == w.store[tip].tree
      then With(w, j, job.(phase := Pushing, head := tip))
    else With(Add(w, GitStore.Commit(tip, tree, {})), j, job.(phase := Pushing, head := |w.store|))
  }

  ghost function DoAct(w: World, j: nat, job: Job, action: Action): World
    requires Ok(w) && WellFormed(w.store, job) && Ready(w, job, action)
  {
    match action
    case Edit(file, content) =>
      With(w, j, job.(work := if content.Some? then job.work[file := content.value] else job.work - {file}))
    case Publish => DoPublish(w, j, job)
    case Push(answer) => DoPush(w, j, job, answer)
    case Fetch => With(w, j, job.(phase := Rebasing(w.branch)))
    case Rebase => DoRebase(w, j, job)
    case SkipApplied(_) => With(w, j, job.(phase := Pushing, head := job.phase.tip))
    case Exit(code) => With(w, j, job.(phase := Ended(code)))
  }

  /** The shards of the copied-from commit, whatever the pull request's own copy holds
      (`_default_branch_shards`); a prune job checks that commit out itself. */
  function DoBegin(w: World, j: nat, base: nat, checkout: Files): World
    requires base < |w.store|
  {
    With(w, j, Job(base, WithShards(checkout, w.store[base].tree.rules), Working, false, base, base, 0, 0))
  }

  ghost function Next(w: World, step: Step): World
    requires Ok(w) && Enabled(w, step)
  {
    match step
    case Begin(j, base, checkout) => DoBegin(w, j, base, checkout)
    case Act(j, action) => DoAct(w, j, w.jobs[j], action)
    case Merge(tree) => World(w.store + [GitStore.Commit(w.branch, tree, {})], |w.store|, w.jobs)
  }

  // ---------- The invariant ----------

  /** The job changed `f`: in its shards it differs from the commit they were copied from. */
  predicate Changed(w: World, job: Job, f: string)
    requires Ok(w) && WellFormed(w.store, job)
  {
    IsShard(f) && Get(w.store[job.base].tree.rules, f) != Get(w.store[job.first].tree.rules, f)
  }

  /** From `a` to `b` nothing changes but shards the job changed, and these become the job's. */
  ghost predicate OnlyItsShards(w: World, job: Job, a: Tree, b: Tree)
    requires Ok(w) && WellFormed(w.store, job)
  {
    && a.state == b.state
    && forall f :: Get(a.rules, f) != Get(b.rules, f) ==>
                     Changed(w, job, f) && Get(b.rules, f) == Get(w.store[job.first].tree.rules, f)
  }

  /** A commit of the branch that is `base` or follows it. */
  predicate Follows(w: World, base: nat, c: nat)
    requires Ok(w) && c < |w.store|
  {
    OnBranch(w, c) && IsAncestor(w.store, base, c)
  }

  /** Since `base`, some commit of the branch held this value, absence included. */
  ghost predicate Landed(w: World, base: nat, f: string, v: Option<string>)
    requires Ok(w)
  {
    exists c :: 0 <= c < |w.store| && Follows(w, base, c) && Get(w.store[c].tree.rules, f) == v
  }

  /** Every shard the job changed is as the job left it in `t`, or has been so on the branch since
      the commit the shards were copied from. */
  ghost predicate Carries(w: World, job: Job, t: Tree)
    requires Ok(w) && WellFormed(w.store, job)
  {
    forall f :: Changed(w, job, f) ==>
      var v := Get(w.store[job.first].tree.rules, f);
      Get(t.rules, f) == v || Landed(w, job.base, f, v)
  }

  /** A rebase dropped the commit: HEAD is a commit of the branch. */
  predicate Dropped(w: World, job: Job)
    requires Ok(w) && WellFormed(w.store, job)
  {
    Follows(w, job.base, job.head) && (job.phase.Rebasing? ==> IsAncestor(w.store, job.head, job.phase.tip))
  }

  /** HEAD is the job's own change on top of a commit of the branch. */
  ghost predicate OwnCommit(w: World, job: Job)
    requires Ok(w) && WellFormed(w.store, job)
  {
    && Follows(w, job.base, w.store[job.head].parent)
    && OnlyItsShards(w, job, Parent(w.store, job.head), w.store[job.head].tree)
  }

  /** The job's commit, before any rebase, holds its shards. */
  predicate Holds(w: World, job: Job)
    requires Ok(w) && WellFormed(w.store, job)
  {
    w.store[job.first].tree.rules == WithShards(w.store[job.base].tree.rules, job.work)
  }

  ghost predicate LoopOk(w: World, job: Job)
    requires Ok(w) && WellFormed(w.store, job)
  {
    && Holds(w, job) && job.committed && 0 < job.first && w.store[job.first].parent == job.base
    && 1 <= job.attempt <= PUSH_ATTEMPTS && job.pushes == job.attempt - 1
    && OnBranch(w, w.store[job.head].parent)
    && (OwnCommit(w, job) || Dropped(w, job))
    && (job.phase.Rebasing? ==> Follows(w, job.base, job.phase.tip))
    && Carries(w, job, w.store[job.head].tree)
  }

  ghost predicate AllLanded(w: World, job: Job)
    requires Ok(w) && WellFormed(w.store, job)
  {
    forall f :: Changed(w, job, f) ==> Landed(w, job.base, f, Get(w.store[job.first].tree.rules, f))
  }

  ghost predicate JobOk(w: World, job: Job)
    requires Ok(w) && WellFormed(w.store, job)
  {
    && OnBranch(w, job.base)
    && match job.phase
       case Working => !job.committed && job.pushes == 0 && job.first == job.base
       case Ended(exit) => job.pushes <= PUSH_ATTEMPTS && (exit == 0 ==> Holds(w, job) && AllLanded(w, job))
       case _ => LoopOk(w, job)
  }

  ghost predicate Inv(w: World) {
    Ok(w) && forall j :: j in w.jobs ==> JobOk(w, w.jobs[j])
  }

  // ---------- Others' steps ----------

  ghost predicate Grown(w: World, v: World)
    requires Ok(w) && Ok(v)
  {
    w.store <= v.store && IsAncestor(v.store, w.branch, v.branch)
  }

  lemma GrownOnBranch(w: World, v: World, c: nat)
    requires Ok(w) && Ok(v) && Grown(w, v) && c < |w.store| && OnBranch(w, c)
    ensures OnBranch(v, c)
  {
    AncestorInLongerStore(w.store, v.store, c, w.branch);
    AncestorTransitive(v.store, c, w.branch, v.branch);
  }

  lemma GrownFollows(w: World, v: World, base: nat, c: nat)
    requires Ok(w) && Ok(v) && Grown(w, v) && c < |w.store| && Follows(w, base, c)
    ensures Follows(v, base, c)
  {
    GrownOnBranch(w, v, c);
    AncestorInLongerStore(w.store, v.store, base, c);
  }

  lemma GrownLanded(w: World, v: World, base: nat, f: string, x: Option<string>)
    requires Ok(w) && Ok(v) && Grown(w, v) && Landed(w, base, f, x)
    ensures Landed(v, base, f, x)
  {
    var c :| 0 <= c < |w.store| && Follows(w, base, c) && Get(w.store[c].tree.rules, f) == x;
    GrownFollows(w, v, base, c);
    assert v.store[c] == w.store[c];
  }

  lemma GrownCarries(w: World, v: World, job: Job, t: Tree)
    requires Ok(w) && Ok(v) && Grown(w, v) && WellFormed(w.store, job) && Carries(w, job, t)
    ensures WellFormed(v.store, job) && Carries(v, job, t)
  {
    hide IsShard;
    forall f | Changed(v, job, f)
      ensures Get(t.rules, f) == Get(v.store[job.first].tree.rules, f)
              || Landed(v, job.base, f, Get(v.store[job.first].tree.rules, f))
    {
      assert Changed(w, job, f);
      var x := Get(w.store[job.first].tree.rules, f);
      if Landed(w, job.base, f, x) { GrownLanded(w, v, job.base, f, x); }
    }
  }

  lemma GrownAllLanded(w: World, v: World, job: Job)
    requires Ok(w) && Ok(v) && Grown(w, v) && WellFormed(w.store, job) && AllLanded(w, job)
    ensures WellFormed(v.store, job) && AllLanded(v, job)
  {
    hide IsShard;
    forall f | Changed(v, job, f) ensures Landed(v, job.base, f, Get(v.store[job.first].tree.rules, f)) {
      assert Changed(w, job, f);
      GrownLanded(w, v, job.base, f, Get(w.store[job.first].tree.rules, f));
    }
  }

  lemma GrownJobOk(w: World, v: World, job: Job)
    requires Ok(w) && Ok(v) && Grown(w, v) && WellFormed(w.store, job) && JobOk(w, job)
    ensures WellFormed(v.store, job) && JobOk(v, job)
  {
    hide IsShard, IsAncestor, Carries, AllLanded, Follows;
    assert forall c :: 0 <= c < |w.store| ==> v.store[c] == w.store[c];
    GrownOnBranch(w, v, job.base);
    if job.phase.Ended? && job.phase.exit == 0 { GrownAllLanded(w, v, job); }
    if InLoop(job.phase) {
      GrownCarries(w, v, job, w.store[job.head].tree);
      var p := w.store[job.head].parent;
      GrownOnBranch(w, v, p);
      if Follows(w, job.base, p) { GrownFollows(w, v, job.base, p); }
      if Follows(w, job.base, job.head) { GrownFollows(w, v, job.base, job.head); }
      if job.phase.Rebasing? {
        GrownFollows(w, v, job.base, job.phase.tip);
        AncestorInLongerStore(w.store, v.store, job.head, job.phase.tip);
      }
    }
  }

  lemma OneJobMoved(w: World, v: World, j: nat, job: Job)
    requires Inv(w) && Ok(v) && Grown(w, v)
    requires v.jobs == w.jobs[j := job] && WellFormed(v.store, job) && JobOk(v, job)
    ensures Inv(v)
  {
    forall q | q in v.jobs ensures JobOk(v, v.jobs[q]) {
      if q != j { GrownJobOk(w, v, w.jobs[q]); }
    }
  }

  // ---------- Steps ----------

  lemma SameStore(w: World, v: World)
    requires Ok(w) && Ok(v) && v.store == w.store && v.branch == w.branch
    ensures Grown(w, v)
  {
  }

  lemma LongerStore(w: World, v: World)
    requires Ok(w) && Ok(v) && w.store <= v.store && v.branch == w.branch
    ensures Grown(w, v)
  {
    AncestorInLongerStore(w.store, v.store, w.branch, w.branch);
  }

  lemma PublishKeeps(w: World, j: nat)
    requires Inv(w) && j in w.jobs && Ready(w, w.jobs[j], Publish)
    ensures Inv(DoPublish(w, j, w.jobs[j]))
  {
    assert IsAncestor(w.store, w.jobs[j].base, w.jobs[j].base);
    hide IsAncestor, IsShard;
    var v := DoPublish(w, j, w.jobs[j]);
    var job := v.jobs[j];
    LongerStore(w, v);
    GrownOnBranch(w, v, job.base);
    var a := v.store[job.base].tree;
    forall f ensures Get(WithShards(a.rules, job.work), f) == Get(if IsShard(f) then job.work else a.rules, f) {}
    OneJobMoved(w, v, j, job);
  }

  /** A landing moves the branch to HEAD over exactly HEAD's own commit, or not at all. */
  lemma LandsOnItsParent(w: World, job: Job)
    requires Ok(w) && WellFormed(w.store, job) && LoopOk(w, job) && IsAncestor(w.store, w.branch, job.head)
    ensures job.head == w.branch || (w.store[job.head].parent == w.branch && !OnBranch(w, job.head))
  {
    if OnBranch(w, job.head) {
      AncestorBounds(w.store, job.head, w.branch);
      AncestorBounds(w.store, w.branch, job.head);
    } else {
      var p := w.store[job.head].parent;
      if job.head != w.branch {
        AncestorBounds(w.store, w.branch, p);
        AncestorBounds(w.store, p, w.branch);
      }
    }
  }

  lemma PushKeeps(w: World, j: nat, answer: Answer)
    requires Inv(w) && j in w.jobs && Ready(w, w.jobs[j], Push(answer))
    ensures Inv(DoPush(w, j, w.jobs[j], answer))
  {
    var job, v := w.jobs[j], DoPush(w, j, w.jobs[j], answer);
    assert Grown(w, v);
    GrownJobOk(w, v, job);
    if answer != Rejected { HeadLanded(v, job); }
    hide IsAncestor, IsShard, Carries, AllLanded, OnlyItsShards;
    OneJobMoved(w, v, j, v.jobs[j]);
  }

  lemma HeadLanded(v: World, job: Job)
    requires Ok(v) && WellFormed(v.store, job) && Follows(v, job.base, job.head)
             && Carries(v, job, v.store[job.head].tree)
    ensures AllLanded(v, job)
  {
    hide IsShard;
  }

  lemma RebaseCarries(w: World, job: Job, tree: Tree)
    requires Ok(w) && WellFormed(w.store, job) && job.phase.Rebasing? && LoopOk(w, job)
    requires tree == MergeTrees(Parent(w.store, job.head), w.store[job.head].tree, w.store[job.phase.tip].tree)
    ensures Carries(w, job, tree)
  {
    hide IsShard, OnlyItsShards;
    var p, h, t := Parent(w.store, job.head), w.store[job.head].tree, w.store[job.phase.tip].tree;
    forall f | Changed(w, job, f)
      ensures Get(tree.rules, f) == Get(w.store[job.first].tree.rules, f)
              || Landed(w, job.base, f, Get(w.store[job.first].tree.rules, f))
    {
      MergeAt(p.rules, h.rules, t.rules, f);
      assert Get(h.rules, f) == Get(w.store[job.first].tree.rules, f)
        || Landed(w, job.base, f, Get(w.store[job.first].tree.rules, f));
    }
  }

  lemma ParentOnBranch(w: World, c: nat)
    requires Ok(w) && c < |w.store|
    ensures OnBranch(w, c) ==> OnBranch(w, w.store[c].parent)
  {
    var p := w.store[c].parent;
    assert IsAncestor(w.store, p, p) && IsAncestor(w.store, p, c);
    if OnBranch(w, c) { AncestorTransitive(w.store, p, c, w.branch); }
  }

  lemma RebaseOnlyItsShards(w: World, job: Job)
    requires Ok(w) && WellFormed(w.store, job) && job.phase.Rebasing?
    requires OnlyItsShards(w, job, Parent(w.store, job.head), w.store[job.head].tree)
    ensures var tip := w.store[job.phase.tip].tree;
      OnlyItsShards(w, job, tip, MergeTrees(Parent(w.store, job.head), w.store[job.head].tree, tip))
  {
    hide IsShard, Carries, IsAncestor;
    var p, h, t := Parent(w.store, job.head), w.store[job.head].tree, w.store[job.phase.tip].tree;
    forall f ensures Get(MergeTrees(p, h, t).rules, f) == Pick(Get(p.rules, f), Get(h.rules, f), Get(t.rules, f)) {
      MergeAt(p.rules, h.rules, t.rules, f);
    }
    forall s ensures Get(MergeTrees(p, h, t).state, s) == Get(t.state, s) { MergeAt(p.state, h.state, t.state, s); }
    SameLookups(MergeTrees(p, h, t).state, t.state);
  }

  /** A commit that is on the branch has brought the job's shards there. */
  lemma OnBranchCarries(w: World, job: Job, t: Tree)
    requires Ok(w) && WellFormed(w.store, job) && Follows(w, job.base, job.head)
    requires Carries(w, job, w.store[job.head].tree)
    ensures Carries(w, job, t)
  {
    HeadLanded(w, job);
    hide IsShard;
  }

  /** The twin came after the commit the shards were copied from, or HEAD would have it. */
  lemma TwinFollows(w: World, job: Job, twin: nat)
    requires Ok(w) && WellFormed(w.store, job) && LoopOk(w, job) && Ready(w, job, SkipApplied(twin))
    ensures Follows(w, job.base, twin)
  {
    var tip := job.phase.tip;
    AncestorTransitive(w.store, twin, tip, w.branch);
    AncestorsInLine(w.store, job.base, twin, tip);
    if OwnCommit(w, job) {
      var p := w.store[job.head].parent;
      assert IsAncestor(w.store, p, p) && IsAncestor(w.store, p, job.head);
      AncestorTransitive(w.store, job.base, p, job.head);
    }
    if IsAncestor(w.store, twin, job.base) { AncestorTransitive(w.store, twin, job.base, job.head); }
  }

  lemma TwinCarries(w: World, job: Job, twin: nat, t: Tree)
    requires Ok(w) && WellFormed(w.store, job) && LoopOk(w, job)
    requires twin < |w.store| && Follows(w, job.base, twin) && SamePatch(w.store, twin, job.head)
    ensures Carries(w, job, t)
  {
    hide IsShard, OnlyItsShards, Follows;
    forall f | Changed(w, job, f) ensures Landed(w, job.base, f, Get(w.store[job.first].tree.rules, f)) {
      var v := Get(w.store[job.first].tree.rules, f);
      if Get(w.store[job.head].tree.rules, f) == v {
        assert Get(Parent(w.store, job.head).rules, f) == v || Get(w.store[twin].tree.rules, f) == v;
      }
    }
  }

  lemma DroppedKeeps(w: World, j: nat, v: World)
    requires Inv(w) && j in w.jobs && w.jobs[j].phase.Rebasing?
    requires v == With(w, j, w.jobs[j].(phase := Pushing, head := w.jobs[j].phase.tip))
    requires Carries(w, w.jobs[j], w.store[w.jobs[j].phase.tip].tree)
    ensures Inv(v)
  {
    hide IsAncestor, IsShard, OnlyItsShards;
    var job := w.jobs[j];
    assert LoopOk(w, job);
    ParentOnBranch(w, job.phase.tip);
    SameStore(w, v);
    GrownJobOk(w, v, job);
    GrownCarries(w, v, job, w.store[job.phase.tip].tree);
    assert forall f :: Changed(v, v.jobs[j], f) == Changed(v, job, f);
    OneJobMoved(w, v, j, v.jobs[j]);
  }

  lemma RebaseKeeps(w: World, j: nat)
    requires Inv(w) && j in w.jobs && Ready(w, w.jobs[j], Rebase)
    ensures Inv(DoRebase(w, j, w.jobs[j]))
  {
    var job, v := w.jobs[j], DoRebase(w, j, w.jobs[j]);
    var tip := job.phase.tip;
    var tree := MergeTrees(Parent(w.store, job.head), w.store[job.head].tree, w.store[tip].tree);
    assert JobOk(w, job) && LoopOk(w, job);
    RebaseCarries(w, job, tree);
    if IsAncestor(w.store, job.head, tip) {
      AncestorTransitive(w.store, job.head, tip, w.branch);
      OnBranchCarries(w, job, w.store[tip].tree);
      DroppedKeeps(w, j, v);
    } else if tree == w.store[tip].tree {
      DroppedKeeps(w, j, v);
    } else {
      RebasedKeeps(w, j);
    }
  }

  lemma RebasedKeeps(w: World, j: nat)
    requires Inv(w) && j in w.jobs && Ready(w, w.jobs[j], Rebase)
    requires !IsAncestor(w.store, w.jobs[j].head, w.jobs[j].phase.tip)
    requires var job := w.jobs[j];
      MergeTrees(Parent(w.store, job.head), w.store[job.head].tree, w.store[job.phase.tip].tree)
      != w.store[job.phase.tip].tree
    ensures Inv(DoRebase(w, j, w.jobs[j]))
  {
    var job, v := w.jobs[j], DoRebase(w, j, w.jobs[j]);
    var tip := job.phase.tip;
    var tree := MergeTrees(Parent(w.store, job.head), w.store[job.head].tree, w.store[tip].tree);
    assert LoopOk(w, job);
    hide IsAncestor, IsShard, Carries, MergeTrees, OnlyItsShards;
    LongerStore(w, v);
    GrownJobOk(w, v, job);
    RebaseCarries(w, job, tree);
    GrownCarries(w, v, job, tree);
    RebaseOnlyItsShards(w, job);
    GrownOnlyItsShards(w, v, job, v.jobs[j], w.store[tip].tree, tree);
    GrownOnBranch(w, v, tip);
    OneJobMoved(w, v, j, v.jobs[j]);
  }

  lemma GrownOnlyItsShards(w: World, v: World, job: Job, next: Job, a: Tree, b: Tree)
    requires Ok(w) && Ok(v) && w.store <= v.store && WellFormed(w.store, job) && WellFormed(v.store, next)
    requires next.base == job.base && next.first == job.first
    requires OnlyItsShards(w, job, a, b)
    ensures OnlyItsShards(v, next, a, b)
    ensures forall t :: Carries(v, job, t) ==> Carries(v, next, t)
  {
    hide IsShard, Landed;
    assert forall f :: Changed(w, job, f) == Changed(v, next, f) == Changed(v, job, f);
  }

  lemma QuietKeeps(w: World, j: nat, action: Action)
    requires Inv(w) && j in w.jobs && Ready(w, w.jobs[j], action) && (action.Edit? || action.Exit?)
    ensures Inv(DoAct(w, j, w.jobs[j], action))
  {
    hide IsShard, Carries, OnlyItsShards, IsAncestor;
    var job, v := w.jobs[j], DoAct(w, j, w.jobs[j], action);
    SameStore(w, v);
    GrownJobOk(w, v, job);
    OneJobMoved(w, v, j, v.jobs[j]);
  }

  lemma FetchKeeps(w: World, j: nat)
    requires Inv(w) && j in w.jobs && Ready(w, w.jobs[j], Fetch)
    ensures Inv(DoAct(w, j, w.jobs[j], Fetch))
  {
    hide IsShard, IsAncestor;
    var job, v := w.jobs[j], DoAct(w, j, w.jobs[j], Fetch);
    SameStore(w, v);
    GrownJobOk(w, v, job);
    assert IsAncestor(v.store, w.branch, w.branch);
    assert forall f :: Changed(v, v.jobs[j], f) == Changed(v, job, f);
    hide Landed;
    assert Carries(v, v.jobs[j], v.store[job.head].tree);
    hide Carries;
    OneJobMoved(w, v, j, v.jobs[j]);
  }

  lemma BeginKeeps(w: World, j: nat, base: nat, checkout: Files)
    requires Inv(w) && Enabled(w, Begin(j, base, checkout))
    ensures Inv(DoBegin(w, j, base, checkout))
  {
    hide IsShard;
    var v := DoBegin(w, j, base, checkout);
    SameStore(w, v);
    GrownOnBranch(w, v, base);
    OneJobMoved(w, v, j, v.jobs[j]);
  }

  lemma MergeKeeps(w: World, tree: Tree)
    requires Inv(w)
    ensures Inv(Next(w, Merge(tree)))
  {
    var v := Next(w, Merge(tree));
    AncestorInLongerStore(w.store, v.store, w.branch, w.branch);
    assert v.store[v.branch].parent == w.branch;
    forall j | j in v.jobs ensures JobOk(v, v.jobs[j]) { GrownJobOk(w, v, w.jobs[j]); }
  }

  /** Every step of every job, and of everybody else, keeps the invariant. */
  lemma StepKeeps(w: World, step: Step)
    requires Inv(w) && Enabled(w, step)
    ensures Inv(Next(w, step))
  {
    hide JobOk, DoBegin, DoPublish, DoPush, DoRebase;
    match step {
      case Begin(j, base, checkout) => BeginKeeps(w, j, base, checkout);
      case Merge(tree) => MergeKeeps(w, tree);
      case Act(j, action) =>
        match action {
          case Publish => PublishKeeps(w, j);
          case Push(answer) => PushKeeps(w, j, answer);
          case Rebase => RebaseKeeps(w, j);
          case SkipApplied(twin) => SkipKeeps(w, j, twin);
          case Edit(_, _) => QuietKeeps(w, j, action);
          case Fetch => FetchKeeps(w, j);
          case Exit(_) => QuietKeeps(w, j, action);
        }
    }
  }

  lemma SkipKeeps(w: World, j: nat, twin: nat)
    requires Inv(w) && j in w.jobs && Ready(w, w.jobs[j], SkipApplied(twin))
    ensures Inv(DoAct(w, j, w.jobs[j], SkipApplied(twin)))
  {
    hide IsShard, Carries, OnlyItsShards;
    var job := w.jobs[j];
    assert JobOk(w, job) && LoopOk(w, job);
    TwinFollows(w, job, twin);
    TwinCarries(w, job, twin, w.store[job.phase.tip].tree);
    DroppedKeeps(w, j, DoAct(w, j, job, SkipApplied(twin)));
  }

  // ---------- Behaviours ----------

  ghost predicate Behaviour(ws: seq<World>, steps: seq<Step>) {
    && |ws| == |steps| + 1
    && Ok(ws[0]) && ws[0].jobs == map[]
    && forall i :: 0 <= i < |steps| ==> Ok(ws[i]) && Enabled(ws[i], steps[i]) && ws[i + 1] == Next(ws[i], steps[i])
  }

  lemma {:induction false} Safe(ws: seq<World>, steps: seq<Step>, i: nat)
    requires Behaviour(ws, steps) && i < |ws|
    ensures Inv(ws[i])
  {
    if i > 0 {
      Safe(ws, steps, i - 1);
      StepKeeps(ws[i - 1], steps[i - 1]);
    }
  }

  function Tip(w: World): Tree
    requires Ok(w)
  {
    w.store[w.branch].tree
  }

  /** Some job changed `f` in its shards, and `v` is what it left there. */
  ghost predicate SomeJobsShard(w: World, f: string, v: Option<string>)
    requires Ok(w)
  {
    exists j :: j in w.jobs && Changed(w, w.jobs[j], f) && Get(w.store[w.jobs[j].first].tree.rules, f) == v
  }

  /** A publish changes nothing on the default branch but the shards the job itself changed. */
  lemma PublishTouchesItsShardsOnly(w: World, j: nat, action: Action)
    requires Inv(w) && j in w.jobs && Ready(w, w.jobs[j], action) && Ok(DoAct(w, j, w.jobs[j], action))
    ensures OnlyItsShards(w, w.jobs[j], Tip(w), Tip(DoAct(w, j, w.jobs[j], action)))
  {
    hide IsShard, Carries;
    if action.Push? && action.answer != Rejected {
      var job := w.jobs[j];
      assert JobOk(w, job) && LoopOk(w, job);
      LandsOnItsParent(w, job);
    }
  }

  lemma JobsStay(w: World, step: Step, j: nat)
    requires Ok(w) && Enabled(w, step) && Ok(Next(w, step)) && j in w.jobs
    ensures var v := Next(w, step);
      && j in v.jobs && v.jobs[j].base == w.jobs[j].base && w.store <= v.store
      && (step != Act(j, Publish) ==> v.jobs[j].first == w.jobs[j].first)
  {
    hide IsShard, WithShards, MergeTrees, IsAncestor, Clean, SamePatch;
  }

  lemma ShardsStay(w: World, step: Step, f: string, v: Option<string>)
    requires Inv(w) && Enabled(w, step) && Inv(Next(w, step)) && SomeJobsShard(w, f, v)
    ensures SomeJobsShard(Next(w, step), f, v)
  {
    hide IsShard, JobOk, Next, Ready;
    var j :| j in w.jobs && Changed(w, w.jobs[j], f) && Get(w.store[w.jobs[j].first].tree.rules, f) == v;
    var next := Next(w, step);
    assert JobOk(w, w.jobs[j]);
    JobsStay(w, step, j);
    if step == Act(j, Publish) { StillWorking(w, w.jobs[j], f); }
    assert Changed(next, next.jobs[j], f);
  }

  lemma StillWorking(w: World, job: Job, f: string)
    requires Ok(w) && WellFormed(w.store, job) && JobOk(w, job) && Ready(w, job, Publish)
    ensures !Changed(w, job, f)
  {
  }

  /** Over any stretch of a behaviour without a person's merge: the deployment state and every
      file outside the shard folder stay as they are, and a shard that changed is now what some
      job that changed it left. */
  lemma {:induction false} OnlyChangedShardsChange(ws: seq<World>, steps: seq<Step>, i: nat, j: nat, f: string)
    requires Behaviour(ws, steps) && i <= j < |ws|
    requires forall k :: i <= k < j ==> !steps[k].Merge?
    ensures Ok(ws[i]) && Ok(ws[j]) && Tip(ws[i]).state == Tip(ws[j]).state
    ensures Get(Tip(ws[i]).rules, f) != Get(Tip(ws[j]).rules, f)
            ==> ".opentide/inflight/" <= f && SomeJobsShard(ws[j], f, Get(Tip(ws[j]).rules, f))
    decreases j
  {
    hide Next, Enabled, SomeJobsShard;
    Safe(ws, steps, i);
    Safe(ws, steps, j);
    if i < j {
      OnlyChangedShardsChange(ws, steps, i, j - 1, f);
      Safe(ws, steps, j - 1);
      StepChanges(ws[j - 1], steps[j - 1], f);
      var v := Get(Tip(ws[j - 1]).rules, f);
      if SomeJobsShard(ws[j - 1], f, v) { ShardsStay(ws[j - 1], steps[j - 1], f, v); }
    }
  }

  lemma StepChanges(w: World, step: Step, f: string)
    requires Inv(w) && Enabled(w, step) && Inv(Next(w, step)) && !step.Merge?
    ensures Tip(w).state == Tip(Next(w, step)).state
    ensures Get(Tip(w).rules, f) != Get(Tip(Next(w, step)).rules, f)
            ==> ".opentide/inflight/" <= f && SomeJobsShard(Next(w, step), f, Get(Tip(Next(w, step)).rules, f))
  {
    hide JobOk;
    if step.Act? {
      PublishTouchesItsShardsOnly(w, step.j, step.action);
      var v := Get(Tip(Next(w, step)).rules, f);
      if Get(Tip(w).rules, f) != v {
        assert Changed(w, w.jobs[step.j], f);
        ShardsStay(w, step, f, v);
      }
    }
  }

  /** Status 0 means that every shard that differs in the job's checkout from the commit it was
      copied from, pruned ones included, has since been on the branch as it is in that checkout. */
  lemma ExitZeroMeansPublished(ws: seq<World>, steps: seq<Step>, i: nat, j: nat, f: string)
    requires Behaviour(ws, steps) && i < |ws| && j in ws[i].jobs && ws[i].jobs[j].phase == Ended(0)
    ensures Ok(ws[i]) && ws[i].jobs[j].base < |ws[i].store|
    ensures var job := ws[i].jobs[j];
      ".opentide/inflight/" <= f && Get(job.work, f) != Get(ws[i].store[job.base].tree.rules, f)
      ==> Landed(ws[i], job.base, f, Get(job.work, f))
  {
    assert IsShard(f) <==> ".opentide/inflight/" <= f;
    hide IsShard;
    Safe(ws, steps, i);
    var w, job := ws[i], ws[i].jobs[j];
    assert JobOk(w, job) && Holds(w, job) && AllLanded(w, job);
    WithShardsAt(w.store[job.base].tree.rules, job.work, f);
    assert IsShard(f) && Get(job.work, f) != Get(w.store[job.base].tree.rules, f) ==> Changed(w, job, f);
    hide Landed;
  }

  lemma WithShardsAt(rest: Files, shards: Files, f: string)
    ensures Get(WithShards(rest, shards), f) == Get(if IsShard(f) then shards else rest, f)
  {
    hide IsShard;
  }

  lemma AtMostFivePushes(ws: seq<World>, steps: seq<Step>, i: nat, j: nat)
    requires Behaviour(ws, steps) && i < |ws| && j in ws[i].jobs
    ensures ws[i].jobs[j].pushes <= 5
  {
    Safe(ws, steps, i);
    assert JobOk(ws[i], ws[i].jobs[j]);
  }

  /** A job that edits no shard publishes nothing, whatever copy of the shards its own checkout
      holds: shards pruned since do not come back. */
  lemma UneditedPublishesNothing(w: World, j: nat, base: nat, checkout: Files)
    requires Ok(w) && Enabled(w, Begin(j, base, checkout))
    ensures var v := DoBegin(w, j, base, checkout);
      DoPublish(v, j, v.jobs[j]) == With(v, j, v.jobs[j].(phase := Ended(0)))
  {
    hide IsShard;
    var shards := w.store[base].tree.rules;
    var published := WithShards(shards, WithShards(checkout, shards));
    forall f ensures Get(published, f) == Get(shards, f) {}
    SameLookups(published, shards);
  }
}
