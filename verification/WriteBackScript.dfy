/** The script of one production job, with its shell variables and its `until` loop
    (`production_writeback` and `deploy_then_writeback`), beside any number of other jobs: each of
    its lines is a step of the state machine. */
module WriteBackScript {
  import opened Options
  import opened GitStore
  import opened WriteBack
  import opened WriteBackSafety
  import opened WriteBackSteps
  import opened WriteBackTheorems
  import opened WriteBackProgress

  /** One push of the loop: the tip that was fetched for it, the branch when it is made, and whether
      it is a fast-forward then, so that it can land. */
  datatype Try = Try(fetched: Option<nat>, branch: nat, canLand: bool)

  /** Each but the first followed a fetch, and could land unless the branch had moved since that. */
  ghost predicate Fair(tries: seq<Try>) {
    && (forall i :: 0 < i < |tries| ==> tries[i].fetched.Some?)
    && (forall i :: 0 <= i < |tries| && tries[i].fetched == Some(tries[i].branch) ==> tries[i].canLand)
  }

  lemma NoTries()
    ensures Fair([])
  {
  }

  lemma FairMore(tries: seq<Try>, last: Try)
    requires Fair(tries) && (tries != [] ==> last.fetched.Some?)
    requires last.fetched == Some(last.branch) ==> last.canLand
    ensures Fair(tries + [last])
  {
  }

  class Script {
    // What the jobs share: the repository and its branch, the other jobs, and what is on record.
    var store: Store
    var branch: nat
    var others: map<nat, Run>
    var ledger: Ledger
    var issued: set<string>

    // This job; the fields of `me` are its working tree and the variables of its shell.
    const r: nat
    var me: Run

    function W(): World reads this { World(store, branch, others[r := me], ledger, issued) }

    ghost predicate Valid() reads this { r !in others && Inv(W()) }

    /** Every id that this job's vendor calls returned is on the branch or on record. */
    ghost predicate NothingLost() reads this {
      branch < |store| && forall m :: m in me.made ==>
        m in Excused(ledger) || Has(store[branch].tree, m) || (!me.published && m in ledger.offered)
    }

    /** Every change that this job may commit has been on the branch since its overlay, or it made none. */
    ghost predicate EverythingLanded() reads this {
      && Ok(W()) && me.base < |store| && (me.published || !me.committed)
      && WorkLanded(W(), me.origin, store[me.base].tree, me.work, me.folder)
    }

    /** HEAD is on top of that commit. */
    ghost predicate Above(tip: nat) reads this {
      ValidStore(store) && me.head < |store| && IsAncestor(store, tip, me.head)
    }

    constructor (w: World, r: nat)
      requires Inv(w) && r in w.runs
      ensures Valid() && W() == w && this.r == r
    {
      hide Inv;
      this.r, me := r, w.runs[r];
      store, branch, others, ledger, issued := w.store, w.branch, w.runs - {r}, w.ledger, w.issued;
      new;
      assert (w.runs - {r})[r := w.runs[r]] == w.runs;
    }

    /** Any number of steps of the other jobs and of people who merge. */
    method Others()
      requires Valid()
      modifies this`store, this`branch, this`others, this`ledger, this`issued
      ensures Valid() && old(store) <= store
    {
      hide Inv, Ok, Enabled, Next, Later;
      var n: nat := *;
      while n > 0
        invariant Valid() && old(store) <= store
      {
        var step: Step := *;
        InvIsOk(W(), r);
        if IsForeign(r, step) && Enabled(W(), step) {
          var v := Next(W(), step);
          StepKeeps(W(), step);
          ForeignKeeps(W(), step, r);
          Grows(W(), step);
          assert (v.runs - {r})[r := me] == v.runs;
          store, branch, others, ledger, issued := v.store, v.branch, v.runs - {r}, v.ledger, v.issued;
          assert W() == v;
        }
        n := n - 1;
      }
    }

    /** The EXIT trap and the script's last lines: the commit nobody took is printed and offered. */
    method Leave(code: nat)
      requires ValidStore(store) && me.stateCommit < |store|
      modifies this`ledger, this`me
      ensures W() == Trap(old(W()), r, old(me), code)
      ensures me == old(me).(phase := me.phase) && me.phase.Ended?
    {
      var s := me.stateCommit;
      assert others[r := me][r := me.(phase := Ended(ScriptStatus(me, code)))]
        == others[r := me.(phase := Ended(ScriptStatus(me, code)))];
      ledger := ledger.(offered := ledger.offered + Lost(store[s].tree, Parent(store, s)));
      me := me.(phase := Ended(if me.deployStatus != 0 then me.deployStatus else code));
    }

    /** Stage the state, and the rules if they validate; commit what is staged. */
    method StageAndCommit(rulesValid: bool, deployed: nat)
      requires Valid() && me.phase.Deploying?
      modifies this
      ensures Valid() && (me.phase.Pushing? || me.phase.Ended?)
      ensures SameStart(old(me), me) && me.deployStatus == deployed && me.pushes == old(me.pushes)
    {
      hide Inv, Ok, ValidStore, WellFormed, IsAncestor, Tracked, IsRule;
      InvIsOk(W(), r);
      ActKeeps(W(), r, Action.Commit(rulesValid, deployed));
      ghost var before, run, next := W(), me, DoCommit(W(), r, me, rulesValid, deployed);
      var base := store[me.base].tree;
      CommitLine(before, r, run, rulesValid, deployed);
      hide DoCommit;
      me := me.(deployStatus := deployed, status := 0);
      var staged := Tree(me.work.state, base.rules);
      var tracked := Tracked(me.folder, base.rules, me.work.rules);
      if tracked != base.rules {
        if rulesValid { staged := staged.(rules := tracked); } else { me := me.(status := 1); }
      }
      if staged == base {
        me := me.(phase := Ended(if deployed != 0 then deployed else me.status));
      } else {
        var c := |store|;
        store := store + [GitStore.Commit(me.base, staged, {})];
        me := me.(committed := true, first := c, head := c, stateCommit := c, attempt := 1, phase := Pushing);
      }
      SameJob(before.(store := store), W(), others, r, run, me);
      assert staged == Staged(run, base, rulesValid);
      assert W() == next;
    }

    /** `until push`: after an accepted push the lines that follow the loop, after a rejected one
        the first lines of its body. */
    method PushOnce() returns (rejected: bool)
      requires Valid() && me.phase.Pushing?
      modifies this
      ensures Valid() && (if rejected then me.phase.Fetching? else me.phase.Ended?)
      ensures SameStart(old(me), me) && me.deployStatus == old(me.deployStatus)
      ensures rejected ==> me.attempt == old(me.attempt) + 1 <= PUSH_ATTEMPTS
      ensures me.pushes == old(me.pushes) + 1 && store == old(store)
      ensures branch == old(branch) || branch == old(me.head)
      ensures me.published ==> branch == old(me.head) && old(Above(branch))
    {
      hide Inv, Ok, ValidStore, WellFormed, IsAncestor, DoPush, Trap;
      InvIsOk(W(), r);
      var answer: Answer := *;
      if !IsAncestor(store, branch, me.head) { answer := Rejected; }
      ActKeeps(W(), r, Push(answer));
      PushLine(W(), r, me, answer);
      ghost var before, run := W(), me;
      me := me.(pushes := me.pushes + 1);
      if answer != Rejected {
        ledger := ledger.(named := ledger.named + store[me.head].named);
        branch := me.head;
      }
      ghost var landed := if answer == Rejected then before else Landing(before, run.head);
      SameJob(landed, W(), others, r, run, me);
      if answer == Accepted {
        me := me.(published := true, phase := Ended(if me.deployStatus != 0 then me.deployStatus else me.status));
        assert W() == With(landed, r, me) by { SameJob(landed, W(), others, r, run, me); }
      } else if me.attempt >= PUSH_ATTEMPTS {
        TrapAgain(landed, r, me, me, 1);
        Leave(1);
      } else {
        me := me.(attempt := me.attempt + 1, phase := Fetching);
        assert W() == With(landed, r, me) by { SameJob(landed, W(), others, r, run, me); }
      }
      rejected := me.phase.Fetching?;
      assert W() == DoPush(before, r, run, answer);
    }

    /** `git fetch`, under `set -e`. */
    method FetchTip() returns (ok: bool)
      requires Valid() && me.phase.Fetching?
      modifies this
      ensures Valid() && (if ok then me.phase == Rebasing(branch) else me.phase.Ended?)
      ensures me == old(me).(phase := me.phase) && branch == old(branch) && store == old(store)
    {
      hide Inv, Ok, WellFormed, Lost;
      InvIsOk(W(), r);
      ok := *;
      ghost var runs := others[r := me];
      if ok {
        ActKeeps(W(), r, Fetch);
        ghost var next := DoAct(W(), r, me, Fetch);
        me := me.(phase := Rebasing(branch));
        assert runs[r := me] == others[r := me];
        assert W() == next;
      } else {
        var code: nat := *;
        if code < 1 { code := 1; }
        ActKeeps(W(), r, Exit(code));
        Leave(code);
      }
    }

    /** `git rebase --onto FETCH_HEAD HEAD~1`; when it stops, abort it, note the failure and reset. */
    method RebaseOnto() returns (applied: bool)
      requires Valid() && me.phase.Rebasing?
      modifies this
      ensures Valid()
      ensures if applied then me.phase.Pushing? else me.phase == Replaying(old(me.phase.tip)) && me.status == 1
      ensures me == old(me).(phase := me.phase, head := me.head, status := me.status)
      ensures branch == old(branch) && old(store) <= store
      ensures applied ==> Above(old(me.phase.tip))
    {
      hide Inv, Ok, WellFormed, Clean, MergeTrees;
      InvIsOk(W(), r);
      var tip := me.phase.tip;
      var parent, ours, onto := Parent(store, me.head), store[me.head].tree, store[tip].tree;
      applied := *;
      if !Clean(parent, ours, onto) { applied := false; }
      ghost var runs := others[r := me];
      if applied {
        ActKeeps(W(), r, Rebase);
        ghost var next := DoRebase(W(), r, me);
        var merged := MergeTrees(parent, ours, onto);
        if merged == onto {
          me := me.(head := tip, phase := Pushing);
        } else {
          var c := |store|;
          store := store + [GitStore.Commit(tip, merged, store[me.head].named)];
          me := me.(head := c, phase := Pushing);
        }
        assert runs[r := me] == others[r := me];
        assert W() == next;
        InvIsOk(W(), r);
        if merged == onto { assert IsAncestor(store, tip, tip); } else { OnTopOf(store, |store| - 1); }
      } else {
        ActKeeps(W(), r, StopRebase);
        ghost var next := DoAct(W(), r, me, StopRebase);
        me := me.(status := 1, phase := Replaying(tip));
        assert runs[r := me] == others[r := me];
        assert W() == next;
      }
    }

    /** `opentide deploy replay-state`, and a commit of what it changed. */
    method ReplayState()
      requires Valid() && me.phase.Replaying?
      modifies this
      ensures Valid() && (me.phase.Pushing? || me.phase.Ended?)
      ensures me == old(me).(phase := me.phase, head := me.head, stateCommit := me.stateCommit,
              published := me.published)
      ensures branch == old(branch) && old(store) <= store
      ensures me.phase.Pushing? ==> Above(old(me.phase.tip))
    {
      hide Inv, Ok, WellFormed, Replayed, Named, Lost;
      InvIsOk(W(), r);
      var fails: bool := *;
      if fails {
        ActKeeps(W(), r, Exit(1));
        Leave(1);
        return;
      }
      ActKeeps(W(), r, Action.Replay);
      ghost var runs, next := others[r := me], DoReplay(W(), r, me);
      var s, tip := me.stateCommit, me.phase.tip;
      var parent, ours, onto := Parent(store, s), store[s].tree, store[tip].tree;
      var tree := Replayed(parent, ours, onto);
      if tree == onto {
        me := me.(published := true, phase := Ended(if me.deployStatus != 0 then me.deployStatus else 1));
      } else {
        var c := |store|;
        store := store + [GitStore.Commit(tip, tree, store[s].named + Named(parent, ours, onto))];
        me := me.(head := c, stateCommit := c, phase := Pushing);
      }
      assert runs[r := me] == others[r := me];
      assert W() == next;
      InvIsOk(W(), r);
      if me.phase.Pushing? { OnTopOf(store, me.head); }
    }

    lemma StillAbove(before: Store, tip: nat)
      requires Valid() && before <= store
      requires ValidStore(before) && me.head < |before| && IsAncestor(before, tip, me.head)
      ensures Above(tip)
    {
      AncestorInLongerStore(before, store, tip, me.head);
    }

    /** The rest of the loop's body: the commit put on top of the fetched tip. */
    method PutOnTop()
      requires Valid() && me.phase.Rebasing?
      modifies this
      ensures Valid() && (me.phase.Pushing? || me.phase.Ended?)
      ensures SameStart(old(me), me) && me.deployStatus == old(me.deployStatus)
      ensures me.pushes == old(me.pushes) && me.attempt == old(me.attempt)
      ensures me.phase.Pushing? ==> Above(old(me.phase.tip))
    {
      hide Inv, IsAncestor;
      Others();
      ghost var tip := me.phase.tip;
      var applied := RebaseOnto();
      if !applied {
        Others();
        ReplayState();
      }
      ghost var before := store;
      Others();
      if me.phase.Pushing? { StillAbove(before, tip); }
    }

    /** The script from the end of the deploy on. It ends, after at most five pushes; a failed
        deploy's status is its status; every id the deploy's vendor calls returned is on the branch
        or on record; status 0 means that the deploy succeeded and all its changes have landed; and
        every retry can land unless the branch has moved since its fetch. */
    method WriteBack(rulesValid: bool, deployed: nat) returns (exit: nat, ghost tries: seq<Try>)
      requires Valid() && me.phase.Deploying?
      modifies this
      ensures Valid() && me.phase == Ended(exit) && SameStart(old(me), me)
      ensures me.pushes <= 5
      ensures deployed != 0 ==> exit == deployed
      ensures NothingLost() && (exit == 0 ==> EverythingLanded())
      ensures |tries| == me.pushes - old(me.pushes) && Fair(tries)
    {
      hide Inv, Ok, ValidStore, WellFormed, WorkLanded, Excused, Fair, IsAncestor;
      NoTries();
      Others();
      StageAndCommit(rulesValid, deployed);
      Others();
      tries := [];
      ghost var tip: Option<nat> := None;
      while me.phase.Pushing?
        invariant Valid() && (me.phase.Pushing? || me.phase.Ended?)
        invariant SameStart(old(me), me) && me.deployStatus == deployed
        invariant |tries| == me.pushes - old(me.pushes) && Fair(tries)
        invariant tries != [] && me.phase.Pushing? ==> tip.Some?
        invariant me.phase.Pushing? && tip.Some? ==> Above(tip.value)
        decreases PUSH_ATTEMPTS - me.attempt
      {
        FairMore(tries, Try(tip, branch, Above(branch)));
        tries := tries + [Try(tip, branch, Above(branch))];
        var rejected := PushOnce();
        if !rejected { break; }
        Others();
        tip := Some(branch);
        var fetched := FetchTip();
        if !fetched { break; }
        PutOnTop();
      }
      exit := me.phase.exit;
      Finished(W(), r);
    }
  }

  /** What the deploy has left for the write-back, which it does not touch. */
  predicate SameStart(a: Run, b: Run) {
    a.origin == b.origin && a.base == b.base && a.folder == b.folder && a.work == b.work && a.made == b.made
  }

  lemma OnTopOf(store: Store, c: nat)
    requires ValidStore(store) && c < |store| && store[c].parent < |store|
    ensures IsAncestor(store, store[c].parent, c)
  {
    assert IsAncestor(store, store[c].parent, store[c].parent);
  }

  lemma Grows(w: World, step: Step)
    requires Inv(w) && Ok(w) && Enabled(w, step) && Inv(Next(w, step))
    ensures w.store <= Next(w, step).store
  {
    hide HistoryOk, RunOk, Next, Enabled;
    StepLater(w, step);
  }

  lemma InvIsOk(w: World, r: nat)
    requires Inv(w) && r in w.runs
    ensures Ok(w) && ValidStore(w.store) && w.branch < |w.store| && WellFormed(w.store, w.runs[r])
    ensures var run := w.runs[r];
      && run.base < |w.store| && run.head < |w.store| && run.stateCommit < |w.store|
      && (InLoop(run.phase) ==> !run.published)
      && (run.phase.Rebasing? || run.phase.Replaying? ==> run.phase.tip < |w.store|)
  {
  }

  lemma ActKeeps(w: World, r: nat, action: Action)
    requires Inv(w) && Ok(w) && r in w.runs && WellFormed(w.store, w.runs[r]) && Ready(w, w.runs[r], action)
    ensures Inv(DoAct(w, r, w.runs[r], action))
  {
    StepKeeps(w, Act(r, action));
    hide Inv, DoAct, Ready;
  }

  lemma CommitLine(w: World, r: nat, run0: Run, rulesValid: bool, deployed: nat)
    requires run0.base < |w.store|
    ensures var base := w.store[run0.base].tree;
      var skipped := !rulesValid && Deliverable(run0, base).rules != base.rules;
      var run := run0.(deployStatus := deployed, status := if skipped then 1 else 0);
      var staged, c := Staged(run0, base, rulesValid), |w.store|;
      DoCommit(w, r, run0, rulesValid, deployed)
      == if staged == base then With(w, r, run.(phase := Ended(ScriptStatus(run, run.status))))
         else With(Add(w, GitStore.Commit(run0.base, staged, {})), r,
                   run.(phase := Pushing, committed := true, first := c, head := c, stateCommit := c, attempt := 1))
  {
  }

  lemma PushLine(w: World, r: nat, run: Run, answer: Answer)
    requires ValidStore(w.store) && WellFormed(w.store, run) && run.head < |w.store| && run.stateCommit < |w.store|
    ensures var pushed := run.(pushes := run.pushes + 1);
      var landed := if answer == Rejected then w else Landing(w, run.head);
      DoPush(w, r, run, answer)
      == if answer == Accepted
         then With(landed, r, pushed.(published := true, phase := Ended(ScriptStatus(pushed, pushed.status))))
         else if run.attempt >= PUSH_ATTEMPTS then Trap(landed, r, pushed, 1)
         else With(landed, r, pushed.(attempt := run.attempt + 1, phase := Fetching))
  {
    hide Trap;
  }

  /** Only the last value of this job's variables matters. */
  lemma SameJob(w: World, v: World, others: map<nat, Run>, r: nat, run: Run, me: Run)
    requires w.runs == others[r := run] && v == World(w.store, w.branch, others[r := me], w.ledger, w.issued)
    ensures v == With(w, r, me)
  {
    assert others[r := run][r := me] == others[r := me];
  }

  lemma TrapAgain(w: World, r: nat, once: Run, run: Run, code: nat)
    requires ValidStore(w.store) && run.stateCommit < |w.store|
    ensures Trap(With(w, r, once), r, run, code) == Trap(w, r, run, code)
  {
    hide Lost;
    var ended := run.(phase := Ended(ScriptStatus(run, code)));
    assert w.runs[r := once][r := ended] == w.runs[r := ended];
  }

  lemma Finished(w: World, r: nat)
    requires Inv(w) && r in w.runs && w.runs[r].phase.Ended?
    ensures Ok(w) && WellFormed(w.store, w.runs[r]) && w.runs[r].base < |w.store| && w.branch < |w.store|
    ensures var run := w.runs[r];
      && run.pushes <= PUSH_ATTEMPTS && (run.deployStatus != 0 ==> run.phase.exit == run.deployStatus)
      && (forall m :: m in run.made ==>
            m in Excused(w.ledger) || Has(w.store[w.branch].tree, m) || (!run.published && m in w.ledger.offered))
      && (run.phase.exit == 0 ==>
            && (run.published || !run.committed)
            && WorkLanded(w, run.origin, w.store[run.base].tree, run.work, run.folder))
  {
    hide HistoryOk, WorkLanded;
    var run := w.runs[r];
    assert RunOk(w, run) && EndedOk(w, run);
    if run.phase.exit == 0 { DeliverableIsTheWork(w, run.origin, w.store[run.base].tree, run); }
  }
}
