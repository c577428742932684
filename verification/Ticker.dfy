/** The batched progress events of one step (src/opentide/core/progress_events.py). */
module Ticker {
  import opened Options

  const BATCHES := 20

  /** Units between two events. */
  function Every(total: nat): (n: nat)
    ensures n >= 1
  {
    if total / BATCHES > 1 then total / BATCHES else 1
  }

  /** Whether the caller that moved the count from `before` to `done` reports it. */
  predicate Reports(total: nat, before: nat, done: nat) {
    done >= total || done / Every(total) != before / Every(total)
  }

  class Ticker {
    const total: nat
    const on: bool
    const every: nat
    var done: nat

    constructor (total: nat, on: bool)
      ensures this.total == total && this.on == on && done == 0 && every == Every(total)
    {
      this.total := total;
      this.on := on;
      done := 0;
      every := if total / BATCHES > 1 then total / BATCHES else 1;
    }

    /** The part of `advance` under the lock. */
    method Take(count: nat) returns (before: nat, now: nat)
      modifies this`done
      ensures before == old(done) && now == done == old(done) + count
    {
      before := done;
      done := done + count;
      now := done;
    }

    /** The part after the lock: it looks at the caller's own two numbers only. */
    method Report(before: nat, now: nat) returns (event: Option<nat>)
      requires every == Every(total)
      ensures event == if Reports(total, before, now) then Some(now) else None
    {
      if now >= total || now / every != before / every {
        event := Some(now);
      } else {
        event := None;
      }
    }

    method Advance(count: nat) returns (event: Option<nat>)
      requires every == Every(total)
      modifies this`done
      ensures done == if on then old(done) + count else old(done)
      ensures event == if on && Reports(total, old(done), old(done) + count) then Some(old(done) + count) else None
    {
      if !on { return None; }
      var before, now := Take(count);
      event := Report(before, now);
    }
  }

  // ---------- The events of a run of calls, in the order in which they took the lock ----------

  function Sum(counts: seq<nat>): nat {
    if counts == [] then 0 else Sum(counts[..|counts| - 1]) + counts[|counts| - 1]
  }

  predicate Positive(counts: seq<nat>) { forall i :: 0 <= i < |counts| ==> counts[i] > 0 }

  function Events(total: nat, counts: seq<nat>): seq<int> {
    if counts == [] then [] else
      var front := counts[..|counts| - 1];
      Events(total, front) + if Reports(total, Sum(front), Sum(counts)) then [Sum(counts)] else []
  }

  /** The caller that takes call `i` crosses the `k`-th boundary. */
  predicate Crosses(total: nat, counts: seq<nat>, i: nat, k: nat)
    requires i < |counts|
  {
    Sum(counts[..i]) < k * Every(total) <= Sum(counts[..i + 1])
  }

  lemma {:induction false} SumGrows(counts: seq<nat>, i: nat, j: nat)
    requires i <= j <= |counts|
    ensures Sum(counts[..i]) <= Sum(counts[..j])
    ensures Positive(counts) && i < j ==> Sum(counts[..i]) < Sum(counts[..j])
    decreases j
  {
    if i < j {
      SumGrows(counts, i, j - 1);
      assert counts[..j][..j - 1] == counts[..j - 1];
    }
  }

  lemma SmallerFactor(a: int, b: int, m: int)
    requires m > 0 && a * m < b * m
    ensures a < b
  {
    assert b * m - a * m == (b - a) * m;
  }

  lemma Between(a: int, n: int, b: int, m: int)
    requires m > 0 && a * m <= n < b * m
    ensures a < b
  {
    SmallerFactor(a, b, m);
  }

  lemma QuotientBounds(n: nat, m: nat)
    requires m > 0
    ensures n / m * m <= n < (n / m + 1) * m && n == n / m * m + n % m
  {
  }

  lemma QuotientBelow(n: nat, m: nat, k: nat)
    requires m > 0 && n < k * m
    ensures n / m < k
  {
    var q: int := n / m;
    assert q * m <= n by { QuotientBounds(n, m); }
    Between(q, n, k, m);
  }

  lemma QuotientAtLeast(n: nat, m: nat, k: nat)
    requires m > 0 && k * m <= n
    ensures k <= n / m
  {
    var q: int := n / m;
    assert n < (q + 1) * m by { QuotientBounds(n, m); }
    Between(k, n, q + 1, m);
  }

  lemma Quotient(n: nat, m: nat, q: nat, r: nat)
    requires m > 0 && n == q * m + r && r < m
    ensures n / m == q && n % m == r
  {
    assert (q + 1) * m == q * m + m;
    QuotientBelow(n, m, q + 1);
    QuotientAtLeast(n, m, q);
    QuotientBounds(n, m);
  }

  lemma BoundaryReached(every: nat, before: nat, done: nat, k: nat)
    requires every > 0 && before < k * every <= done
    ensures before / every < k <= done / every
  {
    QuotientBelow(before, every, k);
    QuotientAtLeast(done, every, k);
  }

  /** Every boundary up to the total is crossed by exactly one call, and that call reports. */
  lemma {:induction false} OneCallCrosses(total: nat, counts: seq<nat>, k: nat) returns (i: nat)
    requires 0 < k && k * Every(total) <= Sum(counts)
    ensures i < |counts| && Crosses(total, counts, i, k)
    ensures forall j :: 0 <= j < |counts| && Crosses(total, counts, j, k) ==> j == i
    ensures Reports(total, Sum(counts[..i]), Sum(counts[..i + 1]))
    decreases |counts|
  {
    i := FirstReaching(counts, k * Every(total));
    BoundaryReached(Every(total), Sum(counts[..i]), Sum(counts[..i + 1]), k);
    forall j | 0 <= j < |counts| && Crosses(total, counts, j, k) ensures j == i {
      if j < i { SumGrows(counts, j + 1, i); }
      if i < j { SumGrows(counts, i + 1, j); }
    }
  }

  lemma {:induction false} FirstReaching(counts: seq<nat>, b: nat) returns (i: nat)
    requires 0 < b <= Sum(counts)
    ensures i < |counts| && Sum(counts[..i]) < b <= Sum(counts[..i + 1])
    decreases |counts|
  {
    i := |counts| - 1;
    var front := counts[..i];
    assert counts[..i + 1] == counts;
    if b <= Sum(front) {
      i := FirstReaching(front, b);
      assert front[..i] == counts[..i] && front[..i + 1] == counts[..i + 1];
    }
  }

  // ---------- How many events ----------

  /** Boundaries up to `n`, and one more when `n` is the total and not on a boundary. */
  function Most(total: nat, n: nat): nat {
    n / Every(total) + if n >= total && n % Every(total) != 0 then 1 else 0
  }

  lemma DivGrows(a: nat, b: nat, m: nat)
    requires m > 0 && a < b
    ensures a / m <= b / m
    ensures b % m == 0 ==> a / m < b / m
  {
    QuotientBounds(b, m);
    QuotientBelow(a, m, b / m + 1);
    if b % m == 0 { QuotientBelow(a, m, b / m); }
  }

  lemma IncreasingMore(events: seq<int>, e: int)
    requires Increasing(events) && forall x :: x in events ==> x < e
    ensures Increasing(events + [e])
  {
    forall i | 0 <= i < |events| ensures events[i] < e { assert events[i] in events; }
  }

  /** The events of positive calls are different values of the count, in increasing order, and the
      total is among them once it is reached. */
  lemma {:induction false} EventsAre(total: nat, counts: seq<nat>)
    requires Positive(counts)
    ensures Increasing(Events(total, counts))
    ensures forall e :: e in Events(total, counts) ==> 0 < e <= Sum(counts)
    ensures Sum(counts) >= total && counts != [] ==> Sum(counts) in Events(total, counts)
    decreases |counts|
  {
    if counts == [] { return; }
    var front := counts[..|counts| - 1];
    EventsAre(total, front);
    assert Sum(counts) > Sum(front) by { assert counts[|counts| - 1] > 0; }
    IncreasingMore(Events(total, front), Sum(counts));
    assert Sum(counts) >= total ==> Reports(total, Sum(front), Sum(counts));
    hide Reports, Increasing, Sum;
  }

  lemma OneMore(total: nat, before: nat, done: nat)
    requires before < done <= total
    ensures Most(total, before) + (if Reports(total, before, done) then 1 else 0) <= Most(total, done)
  {
    hide Every;
    var m := Every(total);
    DivGrows(before, done, m);
    Added(before / m, done / m, done % m, done >= total);
    assert Most(total, before) == before / m;
    assert Most(total, done) == done / m + if done >= total && done % m != 0 then 1 else 0;
    assert Reports(total, before, done) <==> done >= total || done / m != before / m;
  }

  lemma Added(before: nat, after: nat, rest: nat, last: bool)
    requires before <= after && (rest == 0 && last ==> before < after)
    ensures before + (if last || after != before then 1 else 0) <= after + if last && rest != 0 then 1 else 0
  {
  }

  /** Positive calls that add up to no more than the total emit at most `Most`. */
  lemma {:induction false} AtMost(total: nat, counts: seq<nat>)
    requires Positive(counts) && Sum(counts) <= total
    ensures |Events(total, counts)| <= Most(total, Sum(counts))
    decreases |counts|
  {
    if counts == [] { return; }
    var front := counts[..|counts| - 1];
    AtMost(total, front);
    OneMore(total, Sum(front), Sum(counts));
    hide Every, Most, Reports;
  }

  predicate Increasing(events: seq<int>) {
    forall i, j :: 0 <= i < j < |events| ==> events[i] < events[j]
  }

  function Ones(n: nat): (counts: seq<nat>)
    ensures |counts| == n && forall i :: 0 <= i < n ==> counts[i] == 1
  {
    seq(n, i => 1)
  }

  lemma {:induction false} SumOfOnes(n: nat)
    ensures Sum(Ones(n)) == n
    decreases n
  {
    if n > 0 {
      SumOfOnes(n - 1);
      assert Ones(n)[..n - 1] == Ones(n - 1);
    }
  }

  lemma NextUnit(n: nat, m: nat)
    requires m > 0
    ensures (n + 1) / m == if (n + 1) % m == 0 then n / m + 1 else n / m
  {
    var q, r := n / m, n % m;
    QuotientBounds(n, m);
    assert (q + 1) * m == q * m + m;
    if r + 1 == m {
      Quotient(n + 1, m, q + 1, 0);
    } else {
      Quotient(n + 1, m, q, r + 1);
    }
  }

  /** One unit at a time, the bound is met. */
  lemma {:induction false} OnesMeetTheBound(total: nat, n: nat)
    requires n <= total
    ensures |Events(total, Ones(n))| == Most(total, n)
    decreases n
  {
    SumOfOnes(n);
    if n > 0 {
      OnesMeetTheBound(total, n - 1);
      SumOfOnes(n - 1);
      assert Ones(n)[..n - 1] == Ones(n - 1);
      NextUnit(n - 1, Every(total));
      hide Every;
    }
  }

  lemma OneMoreBatch(q: nat, r: nat)
    requires q > 0
    ensures r / q + (if r % q != 0 then 1 else 0) <= 1 <==> r <= q
  {
    QuotientBounds(r, q);
    if r / q >= 2 { assert r / q * q >= 2 * q; }
  }

  lemma MostOf(total: nat, q: nat, r: nat)
    requires q >= 2 && r < 20 && total == 20 * q + r && Every(total) == q
    ensures Most(total, total) == 20 + r / q + (if r % q != 0 then 1 else 0) && r / q < 10
  {
    var a, b := r / q, r % q;
    QuotientBelow(r, q, 10);
    QuotientBounds(r, q);
    assert total == 20 * q + a * q + b == (20 + a) * q + b;
    Quotient(total, q, 20 + a, b);
  }

  /** The last batch is short: at most 20 batches and what is left over. */
  lemma MostIs(total: nat)
    requires total > 0
    ensures Most(total, total) <= 2 * BATCHES - 1
    ensures Most(total, total) <= BATCHES + 1 <==> total < BATCHES || total % BATCHES <= total / BATCHES
  {
    var q, r := total / BATCHES, total % BATCHES;
    if total < 2 * BATCHES {
      assert Every(total) == 1;
      Quotient(total, 1, total, 0);
      return;
    }
    assert Every(total) == q;
    hide Most, Every;
    MostOf(total, q, r);
    OneMoreBatch(q, r);
  }

  /** However the total is split into positive calls there are at most 39 events, in increasing
      order of `done`, and the total is reported. */
  lemma AtMost39(total: nat, counts: seq<nat>)
    requires total > 0 && Positive(counts) && Sum(counts) == total
    ensures var events := Events(total, counts);
      |events| <= 39 && Increasing(events) && events != [] && events[|events| - 1] == total
  {
    AtMost(total, counts);
    EventsAre(total, counts);
    MostIs(total);
    hide Every, Most, Reports, Events;
    var events := Events(total, counts);
    var i :| 0 <= i < |events| && events[i] == total;
  }

  /** "At most 20, plus the last one" is true of every split exactly when the rest that 20 batches
      leave fits into one more. */
  lemma TwentyPlusOneIff(total: nat)
    requires total > 0
    ensures (forall counts :: Positive(counts) && Sum(counts) == total ==> |Events(total, counts)| <= BATCHES + 1)
            <==> total < BATCHES || total % BATCHES <= total / BATCHES
  {
    MostIs(total);
    SumOfOnes(total);
    OnesMeetTheBound(total, total);
    if Most(total, total) <= BATCHES + 1 {
      forall counts | Positive(counts) && Sum(counts) == total ensures |Events(total, counts)| <= BATCHES + 1 {
        AtMost(total, counts);
      }
    } else {
      assert Positive(Ones(total)) && Sum(Ones(total)) == total;
    }
  }

  // ---------- Threads ----------

  /** Callers between the lock and their event wait in `pending`, each with its own two numbers. */
  datatype State = State(done: nat, pending: seq<(nat, nat)>, emitted: seq<int>)

  datatype Step = Take(count: nat) | Report(who: nat)

  predicate Can(s: State, step: Step) {
    step.Report? ==> step.who < |s.pending|
  }

  function Without<T>(s: seq<T>, i: nat): seq<T>
    requires i < |s|
  {
    s[..i] + s[i + 1..]
  }

  function Next(total: nat, s: State, step: Step): State
    requires Can(s, step)
  {
    match step
    case Take(count) => s.(done := s.done + count, pending := s.pending + [(s.done, s.done + count)])
    case Report(who) =>
      s.(pending := Without(s.pending, who), emitted := s.emitted + ToComeOf(total, s.pending[who]))
  }

  const START := State(0, [], [])

  /** Where the steps lead, if each can be taken. */
  function After(total: nat, steps: seq<Step>): Option<State> {
    if steps == [] then Some(START) else
      match After(total, steps[..|steps| - 1])
      case None => None
      case Some(s) => var step := steps[|steps| - 1]; if Can(s, step) then Some(Next(total, s, step)) else None
  }

  function Counts(steps: seq<Step>): seq<nat> {
    if steps == [] then [] else
      Counts(steps[..|steps| - 1]) + match steps[|steps| - 1] case Take(count) => [count] case Report(_) => []
  }

  function ToComeOf(total: nat, caller: (nat, nat)): seq<int> {
    if Reports(total, caller.0, caller.1) then [caller.1] else []
  }

  /** The events still to come from the waiting callers. */
  function ToCome(total: nat, pending: seq<(nat, nat)>): multiset<int> {
    if pending == [] then multiset{} else
      ToCome(total, pending[..|pending| - 1]) + multiset(ToComeOf(total, pending[|pending| - 1]))
  }

  lemma WithoutAndLast<T>(front: seq<T>, last: T, i: nat)
    requires i <= |front|
    ensures Without(front + [last], i) == if i == |front| then front else Without(front, i) + [last]
    ensures (front + [last])[i] == if i == |front| then last else front[i]
  {
  }

  lemma {:induction false} OneLeaves(total: nat, pending: seq<(nat, nat)>, i: nat)
    requires i < |pending|
    ensures ToCome(total, pending) == ToCome(total, Without(pending, i)) + multiset(ToComeOf(total, pending[i]))
    decreases |pending|
  {
    hide ToComeOf, ToCome, Without;
    var front, last := pending[..|pending| - 1], pending[|pending| - 1];
    assert pending == front + [last];
    WithoutAndLast(front, last, i);
    OneJoins(total, front, last);
    if i < |front| {
      OneLeaves(total, front, i);
      OneJoins(total, Without(front, i), last);
    }
  }

  lemma OneJoins(total: nat, pending: seq<(nat, nat)>, caller: (nat, nat))
    ensures ToCome(total, pending + [caller]) == ToCome(total, pending) + multiset(ToComeOf(total, caller))
  {
    assert (pending + [caller])[..|pending|] == pending;
  }

  lemma EventsMore(total: nat, counts: seq<nat>, count: nat)
    ensures Sum(counts + [count]) == Sum(counts) + count
    ensures Events(total, counts + [count])
            == Events(total, counts) + ToComeOf(total, (Sum(counts), Sum(counts) + count))
  {
    hide Reports;
    assert (counts + [count])[..|counts|] == counts;
  }

  /** The events emitted and still to come are those of the calls in lock order. */
  ghost predicate Accounted(total: nat, counts: seq<nat>, s: State) {
    s.done == Sum(counts) && multiset(s.emitted) + ToCome(total, s.pending) == multiset(Events(total, counts))
  }

  lemma TakeKeeps(total: nat, counts: seq<nat>, s: State, count: nat)
    requires Accounted(total, counts, s)
    ensures Accounted(total, counts + [count], Next(total, s, Step.Take(count)))
  {
    hide ToCome, ToComeOf, Events, Sum, Reports;
    var caller := (s.done, s.done + count);
    OneJoins(total, s.pending, caller);
    EventsMore(total, counts, count);
    assert multiset(Events(total, counts + [count]))
      == multiset(Events(total, counts)) + multiset(ToComeOf(total, caller));
  }

  lemma ReportKeeps(total: nat, counts: seq<nat>, s: State, who: nat)
    requires Accounted(total, counts, s) && who < |s.pending|
    ensures Accounted(total, counts, Next(total, s, Step.Report(who)))
  {
    OneLeaves(total, s.pending, who);
    hide ToCome, ToComeOf, Events, Sum, Without;
  }

  lemma LastStep(total: nat, steps: seq<Step>, s: State) returns (before: State)
    requires steps != [] && After(total, steps) == Some(s)
    ensures After(total, steps[..|steps| - 1]) == Some(before)
    ensures Can(before, steps[|steps| - 1]) && s == Next(total, before, steps[|steps| - 1])
  {
    hide Can, Next;
    before := After(total, steps[..|steps| - 1]).value;
  }

  /** Whatever the threads do. */
  lemma {:induction false} SameEvents(total: nat, steps: seq<Step>, s: State)
    requires After(total, steps) == Some(s)
    ensures Accounted(total, Counts(steps), s)
    decreases |steps|
  {
    hide Accounted, Next, After, Counts;
    if steps == [] {
      AtTheStart(total, steps, s);
      return;
    }
    var front, step := steps[..|steps| - 1], steps[|steps| - 1];
    var before := LastStep(total, steps, s);
    CountsOfLast(steps);
    SameEvents(total, front, before);
    if step.Take? {
      TakeKeeps(total, Counts(front), before, step.count);
    } else {
      ReportKeeps(total, Counts(front), before, step.who);
    }
  }

  lemma AtTheStart(total: nat, steps: seq<Step>, s: State)
    requires steps == [] && After(total, steps) == Some(s)
    ensures Accounted(total, Counts(steps), s)
  {
  }

  lemma CountsOfLast(steps: seq<Step>)
    requires steps != []
    ensures var front, step := steps[..|steps| - 1], steps[|steps| - 1];
      Counts(steps) == if step.Take? then Counts(front) + [step.count] else Counts(front)
  {
  }

  /** Any interleaving of threads whose positive calls add up to the total: once all have returned,
      at most 39 events are out, no two alike, and exactly one of them says `done == total`. */
  lemma AnyInterleaving(total: nat, steps: seq<Step>, s: State)
    requires total > 0 && After(total, steps) == Some(s) && s.pending == []
    requires Positive(Counts(steps)) && s.done == total
    ensures |s.emitted| <= 39
    ensures multiset(s.emitted)[total] == 1
    ensures forall e :: e in s.emitted ==> multiset(s.emitted)[e] == 1 && 0 < e <= total
  {
    SameEvents(total, steps, s);
    var events := Events(total, Counts(steps));
    AtMost39(total, Counts(steps));
    EventsAre(total, Counts(steps));
    hide Events, Counts, Sum;
    assert multiset(s.emitted) == multiset(events);
    assert |multiset(s.emitted)| == |multiset(events)|;
    forall e | e in s.emitted ensures multiset(events)[e] == 1 && 0 < e <= total {
      assert e in multiset(s.emitted);
      OnceEach(events, e);
    }
    OnceEach(events, total);
  }

  lemma {:induction false} OnceEach(events: seq<int>, e: int)
    requires Increasing(events) && e in events
    ensures multiset(events)[e] == 1
    decreases |events|
  {
    var front, last := events[..|events| - 1], events[|events| - 1];
    assert events == front + [last];
    if e in front {
      OnceEach(front, e);
    } else {
      assert multiset(front)[e] == 0;
    }
  }
}
