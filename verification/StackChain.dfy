/** The chain of stacked pull requests (scripts/github_stack_comment.py). */
module StackChain {
  import opened Options

  datatype PullRequest = PullRequest(number: int, head: string, base: string)

  predicate IsTrunk(branch: string) { branch == "development" || branch == "main" }

  /** The first pull request with the lowest number. */
  function Lowest(matches: seq<PullRequest>): (r: Option<PullRequest>)
    ensures r.None? <==> matches == []
    ensures r.Some? ==> r.value in matches && forall p :: p in matches ==> r.value.number <= p.number
  {
    if matches == [] then None else
      var last := matches[|matches| - 1];
      match Lowest(matches[..|matches| - 1])
      case None => Some(last)
      case Some(p) => Some(if last.number < p.number then last else p)
  }

  function WithHead(open: seq<PullRequest>, branch: string): (r: seq<PullRequest>)
    ensures forall p :: p in r <==> p in open && p.head == branch
  {
    if open == [] then [] else (if open[0].head == branch then [open[0]] else []) + WithHead(open[1..], branch)
  }

  function WithBase(open: seq<PullRequest>, branch: string): (r: seq<PullRequest>)
    ensures forall p :: p in r <==> p in open && p.base == branch
  {
    if open == [] then [] else (if open[0].base == branch then [open[0]] else []) + WithBase(open[1..], branch)
  }

  /** `_find_parent_pr`. */
  function Parent(open: seq<PullRequest>, pr: PullRequest): Option<PullRequest> {
    if IsTrunk(pr.base) then None else Lowest(WithHead(open, pr.base))
  }

  /** `_find_child_pr`. Unlike the parent, it is looked for on a trunk branch too. */
  function Child(open: seq<PullRequest>, pr: PullRequest): Option<PullRequest> {
    Lowest(WithBase(open, pr.head))
  }

  lemma ParentIs(open: seq<PullRequest>, pr: PullRequest)
    ensures match Parent(open, pr)
      case Some(r) =>
        && r in open && r.head == pr.base && pr.base !in {"development", "main"}
        && forall p :: p in open && p.head == pr.base ==> r.number <= p.number
      case None => pr.base in {"development", "main"} || forall p :: p in open ==> p.head != pr.base
  {
  }

  lemma ChildIs(open: seq<PullRequest>, pr: PullRequest)
    ensures match Child(open, pr)
      case Some(r) =>
        r in open && r.base == pr.head && forall p :: p in open && p.base == pr.head ==> r.number <= p.number
      case None => forall p :: p in open ==> p.base != pr.head
  {
  }

  function Top(chain: seq<PullRequest>): PullRequest
    requires chain != []
  {
    chain[|chain| - 1]
  }

  function Numbers(prs: seq<PullRequest>): set<int> {
    set p | p in prs :: p.number
  }

  /** Whether the walk ends here: there is no next one, or its number is in the chain already. */
  predicate Stops(next: Option<PullRequest>, chain: seq<PullRequest>) {
    next.None? || next.value.number in Numbers(chain)
  }

  function Down(open: seq<PullRequest>, chain: seq<PullRequest>): seq<PullRequest>
    requires chain != []
    decreases Numbers(open) - Numbers(chain)
  {
    var parent := Parent(open, chain[0]);
    if Stops(parent, chain) then chain else
      ParentIs(open, chain[0]);
      assert parent.value.number in Numbers([parent.value] + chain);
      Down(open, [parent.value] + chain)
  }

  function Up(open: seq<PullRequest>, chain: seq<PullRequest>): seq<PullRequest>
    requires chain != []
    decreases Numbers(open) - Numbers(chain)
  {
    var child := Child(open, Top(chain));
    if Stops(child, chain) then chain else
      ChildIs(open, Top(chain));
      assert child.value.number in Numbers(chain + [child.value]);
      Up(open, chain + [child.value])
  }

  function Chain(open: seq<PullRequest>, current: PullRequest): seq<PullRequest> {
    DownIs(open, [current]);
    Up(open, Down(open, [current]))
  }

  predicate Distinct(chain: seq<PullRequest>) {
    forall i, j :: 0 <= i < j < |chain| ==> chain[i].number != chain[j].number
  }

  lemma NewNumber(chain: seq<PullRequest>, pr: PullRequest)
    requires pr.number !in Numbers(chain) && Distinct(chain)
    ensures Distinct([pr] + chain) && Distinct(chain + [pr])
  {
    assert forall i :: 0 <= i < |chain| ==> chain[i].number in Numbers(chain);
  }

  /** What the walk down has made of `chain`, apart from where it stops. */
  ghost predicate Lowered(open: seq<PullRequest>, chain: seq<PullRequest>, d: seq<PullRequest>) {
    && chain != [] && |d| >= |chain| && d[|d| - |chain|..] == chain
    && (forall i :: 0 <= i < |d| - |chain| ==> Parent(open, d[i + 1]) == Some(d[i]))
  }

  ghost predicate Raised(open: seq<PullRequest>, chain: seq<PullRequest>, u: seq<PullRequest>) {
    && chain != [] && chain <= u
    && (forall i :: |chain| - 1 <= i < |u| - 1 ==> Child(open, u[i]) == Some(u[i + 1]))
  }

  lemma LoweredMore(open: seq<PullRequest>, chain: seq<PullRequest>, pr: PullRequest, d: seq<PullRequest>)
    requires chain != [] && Parent(open, chain[0]) == Some(pr) && Lowered(open, [pr] + chain, d)
    ensures Lowered(open, chain, d)
  {
    hide Parent;
    var at := |d| - |chain| - 1;
    assert d[at..][0] == pr && d[at..][1..] == chain && d[at + 1] == d[at..][1];
  }

  lemma RaisedMore(open: seq<PullRequest>, chain: seq<PullRequest>, pr: PullRequest, u: seq<PullRequest>)
    requires chain != [] && Child(open, Top(chain)) == Some(pr) && Raised(open, chain + [pr], u)
    ensures Raised(open, chain, u)
  {
    hide Child;
    assert u[|chain|] == (chain + [pr])[|chain|] && u[|chain| - 1] == (chain + [pr])[|chain| - 1];
  }

  lemma {:induction false} DownIs(open: seq<PullRequest>, chain: seq<PullRequest>)
    requires chain != []
    ensures Down(open, chain) != []
    ensures Lowered(open, chain, Down(open, chain))
    ensures Stops(Parent(open, Down(open, chain)[0]), Down(open, chain))
    ensures Distinct(chain) ==> Distinct(Down(open, chain))
    decreases Numbers(open) - Numbers(chain)
  {
    var parent := Parent(open, chain[0]);
    if Stops(parent, chain) { return; }
    var longer := [parent.value] + chain;
    assert parent.value.number in Numbers(longer) && parent.value.number in Numbers(open)
      by { ParentIs(open, chain[0]); }
    DownIs(open, longer);
    assert Down(open, chain) == Down(open, longer);
    if Distinct(chain) { NewNumber(chain, parent.value); }
    hide *;
    LoweredMore(open, chain, parent.value, Down(open, longer));
  }

  lemma {:induction false} UpIs(open: seq<PullRequest>, chain: seq<PullRequest>)
    requires chain != []
    ensures Up(open, chain) != []
    ensures Raised(open, chain, Up(open, chain))
    ensures Stops(Child(open, Top(Up(open, chain))), Up(open, chain))
    ensures Distinct(chain) ==> Distinct(Up(open, chain))
    decreases Numbers(open) - Numbers(chain)
  {
    var child := Child(open, Top(chain));
    if Stops(child, chain) { return; }
    var longer := chain + [child.value];
    assert child.value.number in Numbers(longer) && child.value.number in Numbers(open)
      by { ChildIs(open, Top(chain)); }
    UpIs(open, longer);
    assert Up(open, chain) == Up(open, longer);
    if Distinct(chain) { NewNumber(chain, child.value); }
    hide *;
    RaisedMore(open, chain, child.value, Up(open, longer));
  }

  /** The shape of the chain for every list of pull requests, cyclic ones included: the current
      one is in it, no number twice, the parents below it and the children above it, each on the
      branch of the one before it, and neither end can be extended. */
  ghost predicate ChainOf(open: seq<PullRequest>, current: PullRequest, chain: seq<PullRequest>, at: nat) {
    && at < |chain| && chain[at] == current && Distinct(chain)
    && (forall i :: 0 <= i < at ==> Parent(open, chain[i + 1]) == Some(chain[i]))
    && (forall i :: at <= i < |chain| - 1 ==> Child(open, chain[i]) == Some(chain[i + 1]))
    && (forall i :: 0 <= i < |chain| - 1 ==> chain[i].head == chain[i + 1].base)
    && Stops(Parent(open, chain[0]), chain[..at + 1])
    && Stops(Child(open, Top(chain)), chain)
  }

  lemma ChainIs(open: seq<PullRequest>, current: PullRequest) returns (at: nat)
    ensures ChainOf(open, current, Chain(open, current), at)
  {
    hide Parent, Child, Numbers, Stops, Lowered, Raised, ChainOf, Down, Up;
    DownIs(open, [current]);
    var d := Down(open, [current]);
    UpIs(open, d);
    ChainShape(open, current, d, Up(open, d));
    at := |d| - 1;
  }

  lemma ChainShape(open: seq<PullRequest>, current: PullRequest, d: seq<PullRequest>, chain: seq<PullRequest>)
    requires d != [] && Lowered(open, [current], d) && Raised(open, d, chain) && Distinct(chain)
    requires Stops(Parent(open, d[0]), d) && Stops(Child(open, Top(chain)), chain)
    ensures ChainOf(open, current, chain, |d| - 1)
  {
    hide Parent, Child, Numbers, Stops, Distinct, IsTrunk;
    var at := |d| - 1;
    assert chain[..at + 1] == d && d[at] == d[at..][0] == current;
    forall i | 0 <= i < at ensures Parent(open, chain[i + 1]) == Some(chain[i]) { assert d[i + 1] == chain[i + 1]; }
    forall i | 0 <= i < |chain| - 1 ensures chain[i].head == chain[i + 1].base {
      if i < at { ParentIs(open, chain[i + 1]); } else { ChildIs(open, chain[i]); }
    }
  }

  method BuildStackChain(current: PullRequest, open: seq<PullRequest>) returns (chain: seq<PullRequest>)
    ensures chain == Chain(open, current)
    ensures exists at: nat :: ChainOf(open, current, chain, at)
  {
    chain := [current];
    while true
      invariant chain != [] && Down(open, chain) == Down(open, [current])
      decreases Numbers(open) - Numbers(chain)
    {
      var parent := Parent(open, chain[0]);
      if parent.None? || parent.value.number in Numbers(chain) { break; }
      ParentIs(open, chain[0]);
      assert parent.value.number in Numbers([parent.value] + chain);
      chain := [parent.value] + chain;
    }
    while true
      invariant chain != [] && Up(open, chain) == Chain(open, current)
      decreases Numbers(open) - Numbers(chain)
    {
      var child := Child(open, Top(chain));
      if child.None? || child.value.number in Numbers(chain) { break; }
      ChildIs(open, Top(chain));
      assert child.value.number in Numbers(chain + [child.value]);
      chain := chain + [child.value];
    }
    var at := ChainIs(open, current);
  }

  // ---------- When every member shows the same chain ----------

  /** Every link holds in both directions, and the walk down ends at the bottom by itself. */
  ghost predicate Straight(open: seq<PullRequest>, chain: seq<PullRequest>) {
    && chain != []
    && (forall i :: 0 <= i < |chain| - 1 ==>
          Child(open, chain[i]) == Some(chain[i + 1]) && Parent(open, chain[i + 1]) == Some(chain[i]))
    && Stops(Parent(open, chain[0]), [chain[0]])
  }

  lemma {:induction false} DownAlong(open: seq<PullRequest>, chain: seq<PullRequest>, i: nat, j: nat)
    requires Straight(open, chain) && Distinct(chain) && j <= i < |chain|
    ensures Down(open, chain[j..i + 1]) == chain[..i + 1]
    decreases j
  {
    var part := chain[j..i + 1];
    assert part[0] == chain[j];
    if j == 0 {
      assert part == chain[..i + 1] && Stops(Parent(open, part[0]), part);
      return;
    }
    DownAlong(open, chain, i, j - 1);
    assert [chain[j - 1]] + part == chain[j - 1..i + 1];
    assert Parent(open, chain[j - 1 + 1]) == Some(chain[j - 1]);
    assert chain[j - 1].number !in Numbers(part);
    hide Numbers, Parent, Distinct, Straight;
  }

  lemma NextUp(open: seq<PullRequest>, chain: seq<PullRequest>, i: nat)
    requires Straight(open, chain) && Distinct(chain) && i < |chain| - 1
    ensures Child(open, chain[i]) == Some(chain[i + 1])
    ensures chain[i + 1].number !in Numbers(chain[..i + 1])
  {
    hide Parent, Child, Stops;
  }

  lemma {:induction false} UpAlong(open: seq<PullRequest>, chain: seq<PullRequest>, i: nat)
    requires Straight(open, chain) && Distinct(chain) && i < |chain| && Stops(Child(open, Top(chain)), chain)
    ensures Up(open, chain[..i + 1]) == chain
    decreases |chain| - i
  {
    hide Parent, Child, Numbers, Distinct, Straight;
    if i == |chain| - 1 {
      assert chain[..i + 1] == chain;
      return;
    }
    NextUp(open, chain, i);
    UpAlong(open, chain, i + 1);
    assert chain[..i + 1] + [chain[i + 1]] == chain[..i + 2];
  }

  lemma SamePlace(open: seq<PullRequest>, chain: seq<PullRequest>, i: nat)
    requires Distinct(chain) && i < |chain| && Chain(open, chain[i]) == chain
    ensures ChainOf(open, chain[i], chain, i)
  {
    var own := ChainIs(open, chain[i]);
    hide Chain;
  }

  /** All members of a stack show the same chain exactly when the stack is straight. */
  lemma SameChainIff(open: seq<PullRequest>, current: PullRequest)
    ensures (forall m :: m in Chain(open, current) ==> Chain(open, m) == Chain(open, current))
            <==> Straight(open, Chain(open, current))
  {
    var chain := Chain(open, current);
    var at := ChainIs(open, current);
    hide Parent, Child, Numbers, Down, Up, Chain;
    if Straight(open, chain) {
      forall m | m in chain ensures Chain(open, m) == chain {
        var i :| 0 <= i < |chain| && chain[i] == m;
        ChainAlong(open, chain, i);
      }
    }
    if forall m :: m in chain ==> Chain(open, m) == chain {
      forall i | 0 <= i < |chain| - 1
        ensures Child(open, chain[i]) == Some(chain[i + 1]) && Parent(open, chain[i + 1]) == Some(chain[i])
      {
        SamePlace(open, chain, i);
        SamePlace(open, chain, i + 1);
      }
      SamePlace(open, chain, 0);
      assert chain[..1] == [chain[0]];
    }
  }

  lemma ChainAlong(open: seq<PullRequest>, chain: seq<PullRequest>, i: nat)
    requires Straight(open, chain) && Distinct(chain) && i < |chain| && Stops(Child(open, Top(chain)), chain)
    ensures Chain(open, chain[i]) == chain
  {
    DownAlong(open, chain, i, i);
    UpAlong(open, chain, i);
    assert chain[i..i + 1] == [chain[i]];
  }

  // ---------- Stacks as people make them ----------

  /** Numbers and heads are unique, and no head is a trunk branch. */
  ghost predicate Orderly(open: seq<PullRequest>) {
    && (forall p, q :: p in open && q in open && p != q ==> p.number != q.number && p.head != q.head)
    && (forall p :: p in open ==> !IsTrunk(p.head))
  }

  /** No two pull requests are based on the head of a third. */
  ghost predicate Unforked(open: seq<PullRequest>) {
    forall below, p, q :: below in open && p in open && q in open && p.base == below.head == q.base ==> p == q
  }

  /** Each is based on the branch of the one before it. */
  ghost predicate Walk(open: seq<PullRequest>, walk: seq<PullRequest>) {
    && (forall i :: 0 <= i < |walk| ==> walk[i] in open)
    && (forall i :: 0 <= i < |walk| - 1 ==> walk[i].head == walk[i + 1].base)
  }

  predicate Closed(walk: seq<PullRequest>) { |walk| >= 2 && walk[0] == walk[|walk| - 1] }

  ghost predicate Acyclic(open: seq<PullRequest>) {
    forall walk :: Walk(open, walk) ==> !Closed(walk)
  }

  lemma AllOpen(open: seq<PullRequest>, current: PullRequest, chain: seq<PullRequest>, at: nat)
    requires current in open && ChainOf(open, current, chain, at)
    ensures Walk(open, chain)
  {
    hide Parent, Child, Numbers, Stops, Distinct;
    forall i | 0 <= i < |chain| ensures chain[i] in open {
      if i < at {
        assert Parent(open, chain[i + 1]) == Some(chain[i]);
        ParentIs(open, chain[i + 1]);
      }
      if i > at {
        assert Child(open, chain[i - 1]) == Some(chain[i - 1 + 1]);
        ChildIs(open, chain[i - 1]);
      }
    }
  }

  lemma SameNumber(open: seq<PullRequest>, chain: seq<PullRequest>, pr: PullRequest) returns (j: nat)
    requires Orderly(open) && Walk(open, chain) && pr in open && pr.number in Numbers(chain)
    ensures j < |chain| && chain[j] == pr
  {
    hide IsTrunk;
    j :| 0 <= j < |chain| && chain[j].number == pr.number;
  }

  lemma ParentCloses(open: seq<PullRequest>, chain: seq<PullRequest>, pr: PullRequest) returns (walk: seq<PullRequest>)
    requires Orderly(open) && Walk(open, chain) && chain != []
    requires Parent(open, chain[0]) == Some(pr) && pr.number in Numbers(chain)
    ensures Walk(open, walk) && Closed(walk)
  {
    hide Numbers, Orderly, IsTrunk, Parent;
    ParentIs(open, chain[0]);
    var j := SameNumber(open, chain, pr);
    walk := [pr] + chain[..j + 1];
  }

  lemma ChildCloses(open: seq<PullRequest>, chain: seq<PullRequest>, pr: PullRequest) returns (walk: seq<PullRequest>)
    requires Orderly(open) && Walk(open, chain) && chain != []
    requires Child(open, Top(chain)) == Some(pr) && pr.number in Numbers(chain)
    ensures Walk(open, walk) && Closed(walk)
  {
    hide Numbers, Orderly, IsTrunk, Child;
    ChildIs(open, Top(chain));
    var j := SameNumber(open, chain, pr);
    walk := chain[j..] + [pr];
  }

  lemma NeverCloses(open: seq<PullRequest>, walk: seq<PullRequest>)
    requires Acyclic(open) && Walk(open, walk)
    ensures !Closed(walk)
  {
  }

  lemma WalkBelow(open: seq<PullRequest>, chain: seq<PullRequest>, at: nat)
    requires Walk(open, chain) && at < |chain|
    ensures Walk(open, chain[..at + 1]) && chain[..at + 1][0] == chain[0]
  {
  }

  /** In an acyclic list the ends of the chain have no neighbour beyond. */
  lemma EndsAreFree(open: seq<PullRequest>, current: PullRequest, chain: seq<PullRequest>, at: nat)
    requires Orderly(open) && Acyclic(open) && current in open && ChainOf(open, current, chain, at)
    ensures Parent(open, chain[0]).None? && Child(open, Top(chain)).None?
  {
    AllOpen(open, current, chain, at);
    WalkBelow(open, chain, at);
    hide Numbers, Orderly, Closed, Parent, Child, Distinct, Acyclic, Walk, Top;
    if Parent(open, chain[0]).Some? {
      var walk := ParentCloses(open, chain[..at + 1], Parent(open, chain[0]).value);
      NeverCloses(open, walk);
    } else if Child(open, Top(chain)).Some? {
      var walk := ChildCloses(open, chain, Child(open, Top(chain)).value);
      NeverCloses(open, walk);
    }
  }

  /** In an orderly list the parent of a pull request on the branch of another is that one. */
  lemma ParentOfLink(open: seq<PullRequest>, below: PullRequest, above: PullRequest)
    requires Orderly(open) && below in open && above in open && below.head == above.base
    ensures Parent(open, above) == Some(below)
  {
    ParentIs(open, above);
    hide Parent;
  }

  /** In an orderly list without forks a link found in one direction is found in the other. */
  lemma LinkBothWays(open: seq<PullRequest>, below: PullRequest, above: PullRequest)
    requires Orderly(open) && Unforked(open) && below in open && above in open && below.head == above.base
    ensures Child(open, below) == Some(above) && Parent(open, above) == Some(below)
  {
    ParentOfLink(open, below, above);
    ChildIs(open, below);
    hide Parent, Child, IsTrunk, Orderly;
  }

  lemma OrderlyIsStraight(open: seq<PullRequest>, chain: seq<PullRequest>)
    requires Orderly(open) && Unforked(open) && Walk(open, chain) && chain != [] && Parent(open, chain[0]).None?
    ensures Straight(open, chain)
  {
    hide Orderly, Unforked, Parent, Child;
    forall i | 0 <= i < |chain| - 1
      ensures Child(open, chain[i]) == Some(chain[i + 1]) && Parent(open, chain[i + 1]) == Some(chain[i])
    {
      LinkBothWays(open, chain[i], chain[i + 1]);
    }
  }

  lemma NeighbourIsMember(open: seq<PullRequest>, chain: seq<PullRequest>, m: PullRequest, p: PullRequest)
    requires Orderly(open) && Unforked(open) && Walk(open, chain) && Straight(open, chain)
    requires Parent(open, chain[0]).None? && Child(open, Top(chain)).None?
    requires m in chain && p in open && (p.head == m.base || p.base == m.head)
    ensures p in chain
  {
    hide Orderly, Unforked, Parent, Child, Stops;
    var i :| 0 <= i < |chain| && chain[i] == m;
    if p.head == m.base {
      LinkBothWays(open, p, m);
      assert i > 0 ==> Parent(open, chain[i - 1 + 1]) == Some(chain[i - 1]);
    } else {
      LinkBothWays(open, m, p);
      assert i < |chain| - 1 ==> Child(open, chain[i]) == Some(chain[i + 1]);
    }
  }

  /** In an orderly, acyclic list without forks the chain is the whole stack, and every member shows it. */
  lemma OneStackOneChain(open: seq<PullRequest>, current: PullRequest)
    requires Orderly(open) && Unforked(open) && Acyclic(open) && current in open
    ensures forall m :: m in Chain(open, current) ==> Chain(open, m) == Chain(open, current)
    ensures forall m, p :: m in Chain(open, current) && p in open && (p.head == m.base || p.base == m.head)
              ==> p in Chain(open, current)
  {
    var chain := Chain(open, current);
    var at := ChainIs(open, current);
    AllOpen(open, current, chain, at);
    EndsAreFree(open, current, chain, at);
    OrderlyIsStraight(open, chain);
    SameChainIff(open, current);
    hide *;
    forall m, p | m in chain && p in open && (p.head == m.base || p.base == m.head) ensures p in chain {
      NeighbourIsMember(open, chain, m, p);
    }
  }

  lemma ParentInChain(open: seq<PullRequest>, c: PullRequest, below: PullRequest) returns (at: nat)
    requires Parent(open, c) == Some(below) && c.number != below.number
    ensures 0 < at < |Chain(open, c)| && Chain(open, c)[at - 1] == below && Chain(open, c)[at] == c
  {
    at := ChainIs(open, c);
    hide Parent, Child, Chain;
    var chain := Chain(open, c);
    assert chain[..1] == [chain[0]];
    assert at > 0 ==> Parent(open, chain[at - 1 + 1]) == Some(chain[at - 1]);
  }

  lemma NextIsChild(open: seq<PullRequest>, below: PullRequest, chain: seq<PullRequest>, own: nat, i: nat)
    requires ChainOf(open, below, chain, own) && i + 1 < |chain| && chain[i] == below
    ensures Child(open, below) == Some(chain[i + 1])
  {
    hide Parent, Child, Numbers, Stops;
    assert own == i;
  }

  /** A pull request that is not the child of its parent shows a chain that the parent does not. */
  lemma LeftOut(open: seq<PullRequest>, below: PullRequest, c: PullRequest)
    requires Parent(open, c) == Some(below) && c.number != below.number && Child(open, below) != Some(c)
    ensures below in Chain(open, c) && Chain(open, below) != Chain(open, c)
  {
    hide *;
    var at := ParentInChain(open, c, below);
    var own := ChainIs(open, below);
    if Chain(open, below) == Chain(open, c) { NextIsChild(open, below, Chain(open, c), own, at - 1); }
  }

  lemma NoSelfLoop(open: seq<PullRequest>, c: PullRequest)
    requires Acyclic(open) && c in open
    ensures c.head != c.base
  {
    var walk := [c, c];
    assert Closed(walk);
    if c.head == c.base { assert Walk(open, walk); }
  }

  /** Two pull requests on the head of a third: the parent does not show the chain of one of them. */
  lemma ForkBreaks(open: seq<PullRequest>, below: PullRequest, p: PullRequest, q: PullRequest) returns (c: PullRequest)
    requires Orderly(open) && Acyclic(open) && below in open && p in open && q in open
    requires p != q && p.base == below.head == q.base
    ensures c in open && below in Chain(open, c) && Chain(open, below) != Chain(open, c)
  {
    c := if Child(open, below) == Some(p) then q else p;
    NoSelfLoop(open, c);
    ParentOfLink(open, below, c);
    hide Parent, Child, Chain, IsTrunk, Acyclic;
    LeftOut(open, below, c);
  }

  /** In an orderly, acyclic list every pull request of every stack shows the same chain exactly
      when no two are based on the head of a third. */
  lemma StacksAgreeIff(open: seq<PullRequest>)
    requires Orderly(open) && Acyclic(open)
    ensures (forall c, m :: c in open && m in Chain(open, c) ==> Chain(open, m) == Chain(open, c)) <==> Unforked(open)
  {
    hide Chain, Orderly, Acyclic;
    if Unforked(open) {
      forall c | c in open ensures forall m :: m in Chain(open, c) ==> Chain(open, m) == Chain(open, c) {
        OneStackOneChain(open, c);
      }
    } else {
      var below, p, q :| below in open && p in open && q in open && p.base == below.head == q.base && p != q;
      var c := ForkBreaks(open, below, p, q);
    }
  }

  /** Such a list: from the third pull request the chain is the first and the third, from the
      first it is the first and the second. */
  lemma ForkedStack(trunk: string, a: string, b: string, c: string)
    requires IsTrunk(trunk) && !IsTrunk(a) && !IsTrunk(b) && !IsTrunk(c) && a != b && a != c && b != c
    ensures var one, two, three := PullRequest(1, a, trunk), PullRequest(2, b, a), PullRequest(3, c, a);
      var open := [one, two, three];
      Chain(open, three) == [one, three] && Chain(open, one) == [one, two]
  {
    var one, two, three := PullRequest(1, a, trunk), PullRequest(2, b, a), PullRequest(3, c, a);
    var open := [one, two, three];
    ParentIs(open, one);
    ParentIs(open, three);
    ChildIs(open, one);
    ChildIs(open, two);
    ChildIs(open, three);
    assert one in open && two in open;
    hide Parent, Child, IsTrunk;
    assert Down(open, [one, three]) == [one, three] && Down(open, [one]) == [one];
    assert [one] + [three] == [one, three] && [one] + [two] == [one, two];
    assert Up(open, [one, three]) == [one, three] && Up(open, [one, two]) == [one, two];
  }
}
