/** What a deployer does for one rule on one tenant (src/opentide/deployment/external_ids.py), and
    what any series of runs leaves at the vendor. */
module ExternalIds {
  import opened Options

  datatype Status = Deploy | Disablement | Deletion

  /** Where a run takes place. */
  datatype Place = Local | Push | ChangeRequest

  /** `external` is `--persist-state-externally`; `release` says that RELEASE is among the run's strategies. */
  datatype Env = Env(external: bool, place: Place, release: bool)

  datatype Code = InRule | Missing | Ignored | Unpersisted

  datatype Plan = Create | Update(id: string) | Delete(id: string) | Refused(code: Code)

  /** `unpersisted_error`: no job would commit an id that this run creates. */
  predicate IsUnpersisted(env: Env) {
    !env.external && env.place != Local && !(env.release && env.place != ChangeRequest)
  }

  /** `plan_external_id`. */
  function PlanFor(legacy: bool, recorded: Option<string>, status: Status, ignored: bool, env: Env): Plan {
    if legacy then Refused(InRule)
    else if recorded.Some? then (if status == Deletion then Delete(recorded.value) else Update(recorded.value))
    else if status == Deletion || status == Disablement then Refused(Missing)
    else if ignored then Refused(Ignored)
    else if IsUnpersisted(env) then Refused(Unpersisted)
    else Create
  }

  /** `WARNING_CODES`. */
  predicate FailsTheRun(plan: Plan) {
    plan.Refused? && plan.code != Missing
  }

  // ---------- Runs ----------

  /** One run's deploy of the rule: what it finds, the rule as it is then, the id the vendor would
      give to a new copy, and how the vendor and the disk answer. */
  datatype Run = Run(legacy: bool, status: Status, ignored: bool, env: Env, rule: string, id: string, vendorOk: bool,
                     writeOk: bool)

  /** `recorded` is what the default branch's shard binds, `remote` the rule's copies on the tenant. */
  datatype State = State(recorded: Option<string>, remote: map<string, string>)

  function PlanOf(s: State, run: Run): Plan {
    PlanFor(run.legacy, s.recorded, run.status, run.ignored, run.env)
  }

  /** What the run's own shard binds once it has acted. */
  function Written(s: State, run: Run): Option<string> {
    if !run.vendorOk || !run.writeOk then s.recorded
    else match PlanOf(s, run)
      case Create => Some(run.id)
      case Delete(_) => None
      case _ => s.recorded
  }

  /** The run's shard reaches the default branch when git does not ignore it and some job commits it. */
  predicate Survives(run: Run) { !run.ignored && !IsUnpersisted(run.env) }

  function After(s: State, run: Run): State {
    var remote :=
      if !run.vendorOk then s.remote
      else match PlanOf(s, run)
        case Create => s.remote[run.id := run.rule]
        case Update(id) => if id in s.remote then s.remote[id := run.rule] else s.remote
        case Delete(id) => s.remote - {id}
        case _ => s.remote;
    State(if Survives(run) then Written(s, run) else s.recorded, remote)
  }

  function AfterAll(s: State, runs: seq<Run>): State {
    if runs == [] then s else After(AfterAll(s, runs[..|runs| - 1]), runs[|runs| - 1])
  }

  function Recorded(s: State): set<string> {
    if s.recorded.Some? then {s.recorded.value} else {}
  }

  /** The copies nobody's shard knows: the next create would add a second one. */
  function Unknown(s: State): set<string> { s.remote.Keys - Recorded(s) }

  /** The run created a rule and could not write its id; the error names it. */
  predicate WriteFailed(s: State, run: Run) {
    PlanOf(s, run) == Create && run.vendorOk && !run.writeOk
  }

  function Reported(s: State, runs: seq<Run>): set<string> {
    if runs == [] then {} else
      var front, run := runs[..|runs| - 1], runs[|runs| - 1];
      Reported(s, front) + if WriteFailed(AfterAll(s, front), run) then {run.id} else {}
  }

  /** The vendor's ids are new. */
  ghost predicate Fresh(s: State, runs: seq<Run>) {
    && (forall i :: 0 <= i < |runs| ==> runs[i].id !in s.remote.Keys + Recorded(s))
    && (forall i, j :: 0 <= i < j < |runs| ==> runs[i].id != runs[j].id)
  }

  lemma {:induction false} IdsSeen(s: State, runs: seq<Run>, id: string)
    requires id in AfterAll(s, runs).remote.Keys + Recorded(AfterAll(s, runs)) + Reported(s, runs)
    ensures id in s.remote.Keys + Recorded(s) || exists i :: 0 <= i < |runs| && runs[i].id == id
    decreases |runs|
  {
    if runs != [] {
      var front := runs[..|runs| - 1];
      if id != runs[|runs| - 1].id { IdsSeen(s, front, id); }
    }
  }

  /** Whatever the runs and wherever they take place, the copies no shard knows are those there
      were and those whose failed write was reported; nothing else makes one, and no run touches one. */
  lemma {:induction false} OnlyReportedIdsAreUnknown(s: State, runs: seq<Run>)
    requires Fresh(s, runs)
    ensures Unknown(AfterAll(s, runs)) == Unknown(s) + Reported(s, runs)
    decreases |runs|
  {
    if runs != [] {
      var front, run := runs[..|runs| - 1], runs[|runs| - 1];
      OnlyReportedIdsAreUnknown(s, front);
      var before := AfterAll(s, front);
      if run.id in before.remote.Keys + Recorded(before) { IdsSeen(s, front, run.id); }
      OneRun(before, run);
    }
  }

  lemma OneRun(s: State, run: Run)
    requires run.id !in s.remote.Keys + Recorded(s)
    ensures Unknown(After(s, run)) == Unknown(s) + if WriteFailed(s, run) then {run.id} else {}
  {
  }

  /** Each outcome, and exactly when a run plans it. */
  lemma PlanActsOnTheRecord(s: State, run: Run)
    ensures var plan := PlanOf(s, run);
            && (plan == Refused(InRule) <==> run.legacy)
            && (forall id :: plan == Update(id) <==> !run.legacy && s.recorded == Some(id) && run.status != Deletion)
            && (forall id :: plan == Delete(id) <==> !run.legacy && s.recorded == Some(id) && run.status == Deletion)
            && (plan == Refused(Missing) <==> !run.legacy && s.recorded == None && run.status != Deploy)
    ensures var plan := PlanOf(s, run);
            var wanted := !run.legacy && s.recorded == None && run.status == Deploy;
            var kept := run.env.external || run.env.place == Local || (run.env.release && run.env.place == Push);
            && (plan == Create <==> wanted && !run.ignored && kept)
            && (plan == Refused(Ignored) <==> wanted && run.ignored)
            && (plan == Refused(Unpersisted) <==> wanted && !run.ignored && !kept)
    ensures FailsTheRun(PlanOf(s, run))
            <==> exists code :: code in {InRule, Ignored, Unpersisted} && PlanOf(s, run) == Refused(code)
  {
    assert InRule in {InRule, Ignored, Unpersisted} && Ignored in {InRule, Ignored, Unpersisted};
  }

  /** The run reached the vendor with the rule. */
  predicate Delivers(run: Run) { !run.legacy && run.vendorOk }

  /** The rule as the last run that delivered it had it. */
  function LastRule(first: string, runs: seq<Run>): string {
    if runs == [] then first
    else if Delivers(runs[|runs| - 1]) then runs[|runs| - 1].rule
    else LastRule(first, runs[..|runs| - 1])
  }

  /** Until it is deleted a rule keeps its one id: over any series of runs that deploy or disable
      it, in any environment, the recorded copy stays on record, holds the rule as the last run that
      delivered it had it, and no other copy appears, changes or goes. */
  lemma {:induction false} OneIdForLife(s: State, runs: seq<Run>, id: string)
    requires s.recorded == Some(id) && id in s.remote
    requires forall i :: 0 <= i < |runs| ==> runs[i].status != Deletion
    ensures AfterAll(s, runs) == State(Some(id), s.remote[id := LastRule(s.remote[id], runs)])
    decreases |runs|
  {
    if runs != [] {
      OneIdForLife(s, runs[..|runs| - 1], id);
    } else {
      assert s.remote[id := s.remote[id]] == s.remote;
    }
  }

  /** And it begins with the first run that plans a create and has no failure, and ends with the
      first such run that deletes it where its shard is committed. */
  lemma BornAndGone(s: State, run: Run)
    requires Delivers(run) && run.writeOk
    ensures s.recorded == None && run.status == Deploy && Survives(run)
            ==> After(s, run) == State(Some(run.id), s.remote[run.id := run.rule])
    ensures s.recorded == None && (run.status != Deploy || !Survives(run)) ==> After(s, run) == s
    ensures s.recorded.Some? && run.status == Deletion
            ==> After(s, run).remote == s.remote - {s.recorded.value}
                && (After(s, run).recorded == None <==> Survives(run))
  {
  }

  /** The record names a copy that is there, unless a run whose shard nobody commits, or could not
      be written, deleted it. */
  predicate DeletedUnrecorded(s: State, run: Run) {
    PlanOf(s, run).Delete? && run.vendorOk && (!run.writeOk || !Survives(run))
  }

  lemma RecordStaysTrueIff(s: State, run: Run)
    requires Recorded(s) <= s.remote.Keys && run.id !in s.remote
    ensures Recorded(After(s, run)) <= After(s, run).remote.Keys <==> !DeletedUnrecorded(s, run)
  {
  }

  /** So long as every write succeeds there is never a second copy. */
  lemma AtMostOneCopy(s: State, runs: seq<Run>)
    requires Fresh(s, runs) && s.remote.Keys <= Recorded(s)
    requires forall i :: 0 <= i < |runs| ==> runs[i].writeOk
    ensures AfterAll(s, runs).remote.Keys <= Recorded(AfterAll(s, runs)) && |AfterAll(s, runs).remote| <= 1
  {
    OnlyReportedIdsAreUnknown(s, runs);
    NoneReported(s, runs);
    var after := AfterAll(s, runs);
    assert after.remote.Keys <= Recorded(after);
    if after.recorded.Some? {
      assert after.remote.Keys == {} || after.remote.Keys == {after.recorded.value};
      assert |after.remote| == |after.remote.Keys|;
    }
  }

  lemma {:induction false} NoneReported(s: State, runs: seq<Run>)
    requires forall i :: 0 <= i < |runs| ==> runs[i].writeOk
    ensures Reported(s, runs) == {}
    decreases |runs|
  {
    if runs != [] { NoneReported(s, runs[..|runs| - 1]); }
  }
}
