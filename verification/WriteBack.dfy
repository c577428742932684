/** The production write-back (src/opentide/ci/writeback.py) as a state machine: any number of
    runs, and people merging, race to one default branch, and every step can fail. */
module WriteBack {
  import opened Options
  import opened ThreeWay
  import opened GitStore

  const PUSH_ATTEMPTS := 5

  /** Where a run's script stands. */
  datatype Phase =
    | Deploying             // after the overlay; vendor calls write ids into `work`
    | Pushing               // at `until push`
    | Fetching              // the push was rejected
    | Rebasing(tip: nat)    // FETCH_HEAD is known
    | Replaying(tip: nat)   // the rebase stopped: reset to FETCH_HEAD, replay the state alone
    | Ended(exit: nat)      // the script has exited with this status
    | Aborted               // stopped before the state commit and its EXIT trap existed

  datatype Run = Run(
    folder: string,         // the rules folder
    origin: nat,            // the branch's tip when the overlay was taken
    base: nat,              // the commit the write-back commits on: the overlay, or the triggering commit
    work: Tree,             // the working tree the deploy writes to
    made: set<Bound>,       // the ids the vendor returned to this run
    phase: Phase,
    committed: bool,
    deployStatus: nat,
    status: nat,            // writeback_status
    first: nat,             // the commit before any rebase or replay
    head: nat,              // HEAD
    stateCommit: nat,       // $state_commit
    attempt: nat,           // $push_attempt
    pushes: nat,            // pushes to the branch made so far
    published: bool         // $state_published
  )

  /** What is on record outside the branch. */
  datatype Ledger = Ledger(
    deleted: set<Bound>,    // the vendor confirmed the delete and the shard entry was dropped
    byHand: set<Bound>,     // a person's merge removed the entry
    named: set<Bound>,      // named in a conflict line of a job whose commit reached the branch
    offered: set<Bound>,    // printed by the EXIT trap, with the commit pushed to its side ref
    logged: set<Bound>      // named by the line each create logs
  )

  datatype World = World(store: Store, branch: nat, runs: map<nat, Run>, ledger: Ledger, issued: set<string>)

  function Excused(l: Ledger): set<Bound> { l.deleted + l.byHand + l.named }

  // ---------- Steps ----------

  datatype Answer = Accepted | Rejected | AcceptedButReportedRejected

  datatype Action =
    | Create(slot: Slot, id: string)
    | Delete(slot: Slot)
    | Edit(file: string, content: Option<string>)
    | Commit(rulesValid: bool, deployStatus: nat)
    | Abort
    | Push(answer: Answer)
    | Fetch
    | Rebase
    | StopRebase
    | Replay
    | Exit(code: nat)   // a failed fetch or replay, or a cancelled job

  datatype Step =
    | Start(r: nat, trigger: nat, folder: string)
    | Act(r: nat, action: Action)
    | Merge(tree: Tree)   // a person's merge, or another job's push

  predicate InLoop(p: Phase) { p.Pushing? || p.Fetching? || p.Rebasing? || p.Replaying? }

  predicate WellFormed(store: Store, run: Run) {
    && run.origin < |store| && run.base < |store| && run.first < |store|
    && run.head < |store| && run.stateCommit < |store|
    && (run.phase.Rebasing? || run.phase.Replaying? ==> run.phase.tip < |store|)
  }

  ghost predicate Ok(w: World) {
    ValidStore(w.store) && w.branch < |w.store| && forall r :: r in w.runs ==> WellFormed(w.store, w.runs[r])
  }

  /** Which actions a run can take. */
  predicate Ready(w: World, run: Run, action: Action)
    requires Ok(w) && WellFormed(w.store, run)
  {
    match action
    // `plan_external_id` creates only where no id is recorded, and the vendor's id is new.
    case Create(slot, id) => run.phase.Deploying? && slot !in run.work.state && id !in w.issued
    case Delete(slot) => run.phase.Deploying? && slot in run.work.state
    case Edit(_, _) => run.phase.Deploying?
    case Commit(_, _) => run.phase.Deploying?
    case Abort => run.phase.Deploying?
    // A push lands only as a fast-forward.
    case Push(answer) => run.phase.Pushing? && (answer != Rejected ==> IsAncestor(w.store, w.branch, run.head))
    case Fetch => run.phase.Fetching?
    case Rebase =>
      run.phase.Rebasing? && Clean(Parent(w.store, run.head), w.store[run.head].tree, w.store[run.phase.tip].tree)
    case StopRebase => run.phase.Rebasing?
    case Replay => run.phase.Replaying?
    case Exit(code) => InLoop(run.phase) && code > 0
  }

  predicate Enabled(w: World, step: Step)
    requires Ok(w)
  {
    match step
    case Start(r, trigger, _) => r !in w.runs && trigger < |w.store| && IsAncestor(w.store, trigger, w.branch)
    case Act(r, action) => r in w.runs && Ready(w, w.runs[r], action)
    case Merge(_) => true
  }

  function Parent(store: Store, c: nat): Tree
    requires ValidStore(store) && c < |store|
  {
    store[store[c].parent].tree
  }

  /** The bindings of `a` that `b` does not have. */
  function Lost(a: Tree, b: Tree): set<Bound> {
    set s | s in a.state && Get(b.state, s) != Some(a.state[s]) :: Bound(s, a.state[s])
  }

  /** The tip's bindings that replaying `ours` over `base` names in conflict lines. */
  function Named(base: Tree, ours: Tree, tip: Tree): set<Bound> {
    set s | s in tip.state && Conflicting(Get(base.state, s), Get(ours.state, s), Get(tip.state, s)) ::
      Bound(s, tip.state[s])
  }

  /** `opentide deploy replay-state` on a checkout of the tip. */
  function Replayed(base: Tree, ours: Tree, tip: Tree): Tree {
    tip.(state := Merge3(base.state, ours.state, tip.state))
  }

  /** The deploy's status when it failed, else the write-back's (`deploy_then_writeback`). */
  function ScriptStatus(run: Run, writeback: nat): nat {
    if run.deployStatus != 0 then run.deployStatus else writeback
  }

  function With(w: World, r: nat, run: Run): World { w.(runs := w.runs[r := run]) }

  function Add(w: World, c: GitStore.Commit): World { w.(store := w.store + [c]) }

  /** The EXIT trap of a run that published nothing. */
  function Trap(w: World, r: nat, run: Run, code: nat): World
    requires ValidStore(w.store) && run.stateCommit < |w.store|
  {
    var offered := Lost(w.store[run.stateCommit].tree, Parent(w.store, run.stateCommit));
    With(w.(ledger := w.ledger.(offered := w.ledger.offered + offered)), r,
         run.(phase := Ended(ScriptStatus(run, code))))
  }

  function AfterRejection(w: World, r: nat, run: Run): World
    requires ValidStore(w.store) && run.stateCommit < |w.store|
  {
    if run.attempt >= PUSH_ATTEMPTS then Trap(w, r, run, 1)
    else With(w, r, run.(attempt := run.attempt + 1, phase := Fetching))
  }

  function Landing(w: World, head: nat): World
    requires head < |w.store|
  {
    w.(branch := head, ledger := w.ledger.(named := w.ledger.named + w.store[head].named))
  }

  /** The overlay: the default branch's state over the triggering commit's files. */
  function Overlay(w: World, trigger: nat): Tree
    requires trigger < |w.store| && w.branch < |w.store|
  {
    w.store[trigger].tree.(state := w.store[w.branch].tree.state)
  }

  function DoStart(w: World, r: nat, trigger: nat, folder: string): World
    requires trigger < |w.store| && w.branch < |w.store|
  {
    var tree := Overlay(w, trigger);
    var same := tree == w.store[trigger].tree;
    var base := if same then trigger else |w.store|;
    var run := Run(folder, w.branch, base, tree, {}, Deploying, false, 0, 0, base, base, base, 0, 0, false);
    With(if same then w else Add(w, GitStore.Commit(trigger, tree, {})), r, run)
  }

  /** A path that `-- <folder>` matches. */
  predicate IsRule(folder: string, file: string) { file == folder || folder + "/" <= file }

  /** What `git add -u -- <folder>` takes of the working tree: changes to files of the rules folder
      that git tracks already. A new file, or one elsewhere, stays behind. */
  function Tracked(folder: string, base: map<string, string>, work: map<string, string>): map<string, string> {
    map f | f in base && (!IsRule(folder, f) || f in work) :: if IsRule(folder, f) then work[f] else base[f]
  }

  lemma TrackedAt(folder: string, base: map<string, string>, work: map<string, string>, f: string)
    ensures Get(Tracked(folder, base, work), f) == if f in base && IsRule(folder, f) then Get(work, f) else Get(base, f)
  {
    hide IsRule;
  }

  /** All that the write-back may commit of the working tree. */
  function Deliverable(run: Run, base: Tree): Tree {
    Tree(run.work.state, Tracked(run.folder, base.rules, run.work.rules))
  }

  /** What `writeback_stage` stages: the state whatever happens, the rule files if they validate. */
  function Staged(run: Run, base: Tree, rulesValid: bool): Tree {
    if rulesValid then Deliverable(run, base) else Tree(run.work.state, base.rules)
  }

  function DoCommit(w: World, r: nat, run0: Run, rulesValid: bool, deployStatus: nat): World
    requires run0.base < |w.store|
  {
    var base := w.store[run0.base].tree;
    var skipped := !rulesValid && Deliverable(run0, base).rules != base.rules;
    var run := run0.(deployStatus := deployStatus, status := if skipped then 1 else 0);
    var staged := Staged(run, base, rulesValid);
    if staged == base then With(w, r, run.(phase := Ended(ScriptStatus(run, run.status))))
    else
      var c := |w.store|;
      With(Add(w, GitStore.Commit(run.base, staged, {})), r,
           run.(phase := Pushing, committed := true, first := c, head := c, stateCommit := c, attempt := 1))
  }

  function DoPush(w: World, r: nat, run0: Run, answer: Answer): World
    requires ValidStore(w.store) && WellFormed(w.store, run0)
  {
    var run := run0.(pushes := run0.pushes + 1);
    match answer
    case Accepted =>
      With(Landing(w, run.head), r, run.(published := true, phase := Ended(ScriptStatus(run, run.status))))
    case Rejected => AfterRejection(w, r, run)
    case AcceptedButReportedRejected => AfterRejection(Landing(w, run.head), r, run)
  }

  /** A rebase that leaves nothing to commit drops the commit: HEAD is then the tip. */
  function DoRebase(w: World, r: nat, run: Run): World
    requires ValidStore(w.store) && WellFormed(w.store, run) && run.phase.Rebasing?
  {
    var tip := run.phase.tip;
    var tree := MergeTrees(Parent(w.store, run.head), w.store[run.head].tree, w.store[tip].tree);
    if tree == w.store[tip].tree then With(w, r, run.(phase := Pushing, head := tip))
    else With(Add(w, GitStore.Commit(tip, tree, w.store[run.head].named)), r, run.(phase := Pushing, head := |w.store|))
  }

  function DoReplay(w: World, r: nat, run: Run): World
    requires ValidStore(w.store) && WellFormed(w.store, run) && run.phase.Replaying?
  {
    var s, tip := run.stateCommit, run.phase.tip;
    var base, ours, onto := Parent(w.store, s), w.store[s].tree, w.store[tip].tree;
    var tree := Replayed(base, ours, onto);
    if tree == onto then With(w, r, run.(published := true, phase := Ended(ScriptStatus(run, 1))))
    else
      var c := GitStore.Commit(tip, tree, w.store[s].named + Named(base, ours, onto));
      With(Add(w, c), r, run.(phase := Pushing, head := |w.store|, stateCommit := |w.store|))
  }

  function DoMerge(w: World, tree: Tree): World
    requires w.branch < |w.store|
  {
    World(w.store + [GitStore.Commit(w.branch, tree, {})], |w.store|, w.runs,
          w.ledger.(byHand := w.ledger.byHand + Lost(w.store[w.branch].tree, tree)),
          w.issued + tree.state.Values)
  }

  function DoAct(w: World, r: nat, run: Run, action: Action): World
    requires Ok(w) && WellFormed(w.store, run) && Ready(w, run, action)
  {
    match action
    case Create(slot, id) =>
      With(w.(issued := w.issued + {id}, ledger := w.ledger.(logged := w.ledger.logged + {Bound(slot, id)})), r,
           run.(work := run.work.(state := run.work.state[slot := id]), made := run.made + {Bound(slot, id)}))
    case Delete(slot) =>
      With(w.(ledger := w.ledger.(deleted := w.ledger.deleted + {Bound(slot, run.work.state[slot])})), r,
           run.(work := run.work.(state := run.work.state - {slot})))
    case Edit(file, content) =>
      var rules := if content.Some? then run.work.rules[file := content.value] else run.work.rules - {file};
      With(w, r, run.(work := run.work.(rules := rules)))
    case Commit(rulesValid, deployStatus) => DoCommit(w, r, run, rulesValid, deployStatus)
    case Abort => With(w, r, run.(phase := Aborted))
    case Push(answer) => DoPush(w, r, run, answer)
    case Fetch => With(w, r, run.(phase := Rebasing(w.branch)))
    case Rebase => DoRebase(w, r, run)
    case StopRebase => With(w, r, run.(status := 1, phase := Replaying(run.phase.tip)))
    case Replay => DoReplay(w, r, run)
    case Exit(code) => Trap(w, r, run, code)
  }

  function Next(w: World, step: Step): World
    requires Ok(w) && Enabled(w, step)
  {
    match step
    case Start(r, trigger, folder) => DoStart(w, r, trigger, folder)
    case Act(r, action) => DoAct(w, r, w.runs[r], action)
    case Merge(tree) => DoMerge(w, tree)
  }
}
