/** `_reject_duplicate_keys` (src/opentide/core/io.py): the explicit-stack walk over a YAML node graph. */
module YamlWalk {
  import opened Options

  /** A node is named by a number; an alias is the very node its anchor names, so nodes are shared
      and may lie on cycles. A mapping's key is its text, or its `repr` when it is not a scalar. */
  datatype Node =
    | Scalar
    | Sequence(items: seq<nat>)
    | Mapping(entries: seq<(string, nat)>)

  type Document = map<nat, Node>

  datatype Error =
    | RecursiveAlias(node: nat)
    | DuplicateKey(node: nat, index: nat)

  datatype Outcome = Accepted(checked: set<nat>) | Refused(error: Error)

  /** `m` is the value or the item at `i` of the node; a key is neither. */
  predicate IsPart(node: Node, i: nat, m: nat) {
    || (node.Sequence? && i < |node.items| && node.items[i] == m)
    || (node.Mapping? && i < |node.entries| && node.entries[i].1 == m)
  }

  /** The node holds `m`. */
  ghost predicate Holds(node: Node, m: nat) { exists i :: IsPart(node, i, m) }

  ghost predicate Closed(doc: Document) {
    forall n, m :: n in doc && Holds(doc[n], m) ==> m in doc
  }

  /** The nodes the walk descends into: every part of the node, in document order. */
  function Children(node: Node): (c: seq<nat>)
    ensures forall i: nat, m :: IsPart(node, i, m) <==> i < |c| && c[i] == m
  {
    match node
    case Scalar => []
    case Sequence(items) => items
    case Mapping(entries) => seq(|entries|, i requires 0 <= i < |entries| => entries[i].1)
  }

  lemma ChildrenAreHeld(node: Node)
    ensures forall m :: m in Children(node) <==> Holds(node, m)
  {
    forall m | m in Children(node) ensures Holds(node, m) {
      var i :| 0 <= i < |Children(node)| && Children(node)[i] == m;
      assert IsPart(node, i, m);
    }
  }

  /** The entry at `i` repeats an earlier entry's key. */
  predicate Repeats(entries: seq<(string, nat)>, i: nat)
    requires i < |entries|
  {
    exists j :: 0 <= j < i && entries[j].0 == entries[i].0
  }

  predicate HasDuplicate(node: Node) {
    node.Mapping? && exists i: nat :: i < |node.entries| && Repeats(node.entries, i)
  }

  ghost predicate IsFirstDuplicate(node: Node, i: nat) {
    node.Mapping? && i < |node.entries| && Repeats(node.entries, i)
    && forall j: nat :: j < i ==> !Repeats(node.entries, j)
  }

  // ---------- The reference: recursive depth-first search in document order ----------

  function FirstDuplicate(entries: seq<(string, nat)>, from: nat): (i: nat)
    requires from <= |entries|
    ensures from <= i <= |entries|
    ensures i < |entries| ==> Repeats(entries, i)
    ensures forall j: nat :: from <= j < i ==> !Repeats(entries, j)
    decreases |entries| - from
  {
    if from == |entries| || Repeats(entries, from) then from else FirstDuplicate(entries, from + 1)
  }

  function Visit(doc: Document, node: nat, open: set<nat>, checked: set<nat>): Outcome
    requires Closed(doc) && node in doc
    decreases doc.Keys - open, 1, 0
  {
    if node in checked then Accepted(checked)
    else if node in open then Refused(RecursiveAlias(node))
    else if doc[node].Scalar? then Accepted(checked + {node})
    else if HasDuplicate(doc[node]) then Refused(DuplicateKey(node, FirstDuplicate(doc[node].entries, 0)))
    else
      assert doc.Keys - (open + {node}) < doc.Keys - open by { assert node in doc.Keys - open; }
      ChildrenAreHeld(doc[node]);
      match VisitAll(doc, Children(doc[node]), open + {node}, checked)
      case Accepted(after) => Accepted(after + {node})
      case Refused(e) => Refused(e)
  }

  function VisitAll(doc: Document, nodes: seq<nat>, open: set<nat>, checked: set<nat>): Outcome
    requires Closed(doc) && forall c :: c in nodes ==> c in doc
    decreases doc.Keys - open, 2, |nodes|
  {
    if nodes == [] then Accepted(checked) else
      match Visit(doc, nodes[0], open, checked)
      case Refused(e) => Refused(e)
      case Accepted(after) => VisitAll(doc, nodes[1..], open, after)
  }

  // ---------- What the answer means ----------

  ghost predicate IsPath(doc: Document, p: seq<nat>) {
    && p != [] && (forall i :: 0 <= i < |p| ==> p[i] in doc)
    && forall i :: 0 <= i < |p| - 1 ==> Holds(doc[p[i]], p[i + 1])
  }

  ghost predicate PathFrom(doc: Document, a: nat, b: nat, p: seq<nat>) {
    IsPath(doc, p) && p[0] == a && p[|p| - 1] == b
  }

  ghost predicate Reaches(doc: Document, a: nat, b: nat) {
    exists p :: PathFrom(doc, a, b, p)
  }

  /** Along at least one edge. */
  ghost predicate LeadsTo(doc: Document, a: nat, b: nat) {
    exists p :: PathFrom(doc, a, b, p) && |p| > 1
  }

  ghost predicate OnCycle(doc: Document, n: nat) { LeadsTo(doc, n, n) }

  lemma Here(doc: Document, a: nat)
    requires a in doc
    ensures Reaches(doc, a, a)
  {
    assert PathFrom(doc, a, a, [a]);
  }

  lemma Edge(doc: Document, a: nat, b: nat)
    requires Closed(doc) && a in doc && Holds(doc[a], b)
    ensures LeadsTo(doc, a, b) && Reaches(doc, a, b)
  {
    assert PathFrom(doc, a, b, [a, b]);
  }

  lemma Joined(doc: Document, a: nat, b: nat, c: nat, p: seq<nat>, q: seq<nat>)
    requires PathFrom(doc, a, b, p) && PathFrom(doc, b, c, q)
    ensures PathFrom(doc, a, c, p + q[1..])
  {
    var r := p + q[1..];
    forall i | 0 <= i < |r| - 1 ensures r[i] in doc && Holds(doc[r[i]], r[i + 1]) {
      if i >= |p| - 1 {
        assert r[i] == q[i - (|p| - 1)] && r[i + 1] == q[i + 1 - (|p| - 1)];
      }
    }
    assert r[|r| - 1] == if |q| > 1 then q[|q| - 1] else p[|p| - 1];
  }

  lemma ReachesOn(doc: Document, a: nat, b: nat, c: nat)
    requires Reaches(doc, a, b) && Reaches(doc, b, c)
    ensures Reaches(doc, a, c)
    ensures LeadsTo(doc, a, b) || LeadsTo(doc, b, c) ==> LeadsTo(doc, a, c)
  {
    var p :| PathFrom(doc, a, b, p) && (LeadsTo(doc, a, b) ==> |p| > 1);
    var q :| PathFrom(doc, b, c, q) && (LeadsTo(doc, b, c) ==> |q| > 1);
    Joined(doc, a, b, c, p, q);
  }

  /** Checked nodes are finished: so are their children, no key repeats, no cycle passes through. */
  ghost predicate Finished(doc: Document, checked: set<nat>) {
    forall n :: n in checked ==>
      n in doc && !HasDuplicate(doc[n]) && !OnCycle(doc, n) && forall c :: Holds(doc[n], c) ==> c in checked
  }

  lemma {:induction false} FinishedPath(doc: Document, checked: set<nat>, p: seq<nat>, i: nat)
    requires Finished(doc, checked) && IsPath(doc, p) && p[0] in checked && i < |p|
    ensures p[i] in checked
  {
    if i > 0 { FinishedPath(doc, checked, p, i - 1); }
  }

  lemma FinishedReaches(doc: Document, checked: set<nat>, a: nat, b: nat)
    requires Finished(doc, checked) && a in checked && Reaches(doc, a, b)
    ensures b in checked
  {
    var p :| PathFrom(doc, a, b, p);
    FinishedPath(doc, checked, p, |p| - 1);
  }

  /** A node whose children are all finished, and which is not, closes no cycle. */
  lemma NoCycleThrough(doc: Document, checked: set<nat>, n: nat)
    requires Closed(doc) && Finished(doc, checked) && n in doc && n !in checked
    requires forall c :: Holds(doc[n], c) ==> c in checked
    ensures !OnCycle(doc, n)
  {
    if OnCycle(doc, n) {
      var p :| PathFrom(doc, n, n, p) && |p| > 1;
      assert IsPath(doc, p[1..]) && p[1] in checked;
      FinishedPath(doc, checked, p[1..], |p| - 2);
    }
  }

  ghost predicate AllLeadTo(doc: Document, open: set<nat>, n: nat) {
    forall o :: o in open ==> LeadsTo(doc, o, n)
  }

  /** A refusal names a real fault, in a node reachable from `from`. */
  ghost predicate Witness(doc: Document, from: nat, e: Error) {
    && Reaches(doc, from, e.node) && e.node in doc
    && match e
       case RecursiveAlias(n) => OnCycle(doc, n)
       case DuplicateKey(n, i) => IsFirstDuplicate(doc[n], i)
  }

  lemma {:induction false} VisitMeans(doc: Document, node: nat, open: set<nat>, checked: set<nat>)
    requires Closed(doc) && node in doc
    requires Finished(doc, checked) && open !! checked && AllLeadTo(doc, open, node)
    ensures var r := Visit(doc, node, open, checked);
            match r
            case Accepted(after) => Finished(doc, after) && open !! after && checked <= after && node in after
            case Refused(e) => Witness(doc, node, e)
    decreases doc.Keys - open, 1, 0
  {
    Here(doc, node);
    if node in checked || node in open || HasDuplicate(doc[node]) {
    } else if doc[node].Scalar? {
      NoCycleThrough(doc, checked, node);
    } else {
      assert node in doc.Keys - open;
      ChildrenAreHeld(doc[node]);
      VisitAllMeans(doc, node, Children(doc[node]), open + {node}, checked);
      var r := VisitAll(doc, Children(doc[node]), open + {node}, checked);
      if r.Accepted? { NoCycleThrough(doc, r.checked, node); }
    }
  }

  lemma {:induction false} VisitAllMeans(doc: Document, parent: nat, nodes: seq<nat>, open: set<nat>, checked: set<nat>)
    requires Closed(doc) && parent in doc && parent in open && AllLeadTo(doc, open - {parent}, parent)
    requires forall c :: c in nodes ==> Holds(doc[parent], c)
    requires Finished(doc, checked) && open !! checked
    ensures var r := VisitAll(doc, nodes, open, checked);
            match r
            case Accepted(after) =>
              Finished(doc, after) && open !! after && checked <= after && forall c :: c in nodes ==> c in after
            case Refused(e) => Witness(doc, parent, e)
    decreases doc.Keys - open, 2, |nodes|
  {
    if nodes != [] {
      var c := nodes[0];
      Edge(doc, parent, c);
      forall o | o in open ensures LeadsTo(doc, o, c) {
        if o != parent {
          assert LeadsTo(doc, o, parent);
          ReachesOn(doc, o, parent, c);
        }
      }
      VisitMeans(doc, c, open, checked);
      match Visit(doc, c, open, checked) {
        case Refused(e) => ReachesOn(doc, parent, c, e.node);
        case Accepted(after) =>
          VisitAllMeans(doc, parent, nodes[1..], open, after);
          assert forall x :: x in nodes ==> x == c || x in nodes[1..];
      }
    }
  }

  /** Nothing reachable from the root lies on a cycle or repeats a key. */
  ghost predicate AllSound(doc: Document, root: nat) {
    forall n | n in doc && Reaches(doc, root, n) :: !OnCycle(doc, n) && !HasDuplicate(doc[n])
  }

  /** The document is accepted exactly when nothing reachable from the root lies on a cycle or
      repeats a key; a refusal names the first offending key of a reachable mapping, or a node
      that really closes a cycle. */
  lemma AcceptedIffSound(doc: Document, root: nat)
    requires Closed(doc) && root in doc
    ensures Visit(doc, root, {}, {}).Accepted?
            <==> AllSound(doc, root)
    ensures Visit(doc, root, {}, {}).Refused? ==> Witness(doc, root, Visit(doc, root, {}, {}).error)
  {
    VisitMeans(doc, root, {}, {});
    match Visit(doc, root, {}, {}) {
      case Accepted(after) =>
        forall n | n in doc && Reaches(doc, root, n) ensures !OnCycle(doc, n) && !HasDuplicate(doc[n]) {
          FinishedReaches(doc, after, root, n);
        }
      case Refused(e) =>
    }
  }

  // ---------- Which fault is reported ----------

  /** Following the parts at the positions `w` from `n` one comes to the fault `e`, and to none
      before it: to a node that is open already, or to a key that repeats. */
  ghost predicate FaultAt(doc: Document, n: nat, open: set<nat>, w: seq<nat>, e: Error)
    decreases |w|
  {
    n in doc
    && if w == [] then
         if n in open then e == RecursiveAlias(n)
         else e.DuplicateKey? && e.node == n && IsFirstDuplicate(doc[n], e.index)
       else
         && n !in open && !HasDuplicate(doc[n])
         && exists m :: IsPart(doc[n], w[0], m) && FaultAt(doc, m, open + {n}, w[1..], e)
  }

  /** Earlier in the document. */
  predicate Before(v: seq<nat>, w: seq<nat>)
    decreases |v|
  {
    w != [] && (v == [] || v[0] < w[0] || (v[0] == w[0] && Before(v[1..], w[1..])))
  }

  ghost predicate IsFirstFault(doc: Document, n: nat, open: set<nat>, w: seq<nat>, e: Error) {
    FaultAt(doc, n, open, w, e) && forall v, d :: FaultAt(doc, n, open, v, d) ==> !Before(v, w)
  }

  /** No walk from a finished node comes to a fault. */
  lemma {:induction false} NoFaultFrom(doc: Document, n: nat, open: set<nat>, checked: set<nat>, w: seq<nat>, e: Error)
    requires Closed(doc) && Finished(doc, checked) && n in checked
    requires forall o :: o in open && o in checked ==> LeadsTo(doc, o, n)
    ensures !FaultAt(doc, n, open, w, e)
    decreases |w|
  {
    if FaultAt(doc, n, open, w, e) && w != [] {
      var m :| IsPart(doc[n], w[0], m) && FaultAt(doc, m, open + {n}, w[1..], e);
      assert Holds(doc[n], m);
      Edge(doc, n, m);
      forall o | o in open + {n} && o in checked ensures LeadsTo(doc, o, m) {
        if o != n { ReachesOn(doc, o, n, m); }
      }
      NoFaultFrom(doc, m, open + {n}, checked, w[1..], e);
    }
  }

  /** A refusal reports the first fault in the document, and where no fault is there is none. */
  lemma {:induction false} VisitFindsFirst(doc: Document, node: nat, open: set<nat>, checked: set<nat>)
    returns (w: seq<nat>)
    requires Closed(doc) && node in doc
    requires Finished(doc, checked) && open !! checked && AllLeadTo(doc, open, node)
    ensures var r := Visit(doc, node, open, checked);
            match r
            case Accepted(_) => forall v, d :: !FaultAt(doc, node, open, v, d)
            case Refused(e) => IsFirstFault(doc, node, open, w, e)
    decreases doc.Keys - open, 1, 0
  {
    w := [];
    VisitMeans(doc, node, open, checked);
    if Visit(doc, node, open, checked).Accepted? {
      var after := Visit(doc, node, open, checked).checked;
      forall v, d ensures !FaultAt(doc, node, open, v, d) { NoFaultFrom(doc, node, open, after, v, d); }
    } else if node !in open && !HasDuplicate(doc[node]) {
      assert node in doc.Keys - open;
      ChildrenAreHeld(doc[node]);
      var rest := AllFindFirst(doc, node, 0, open + {node}, checked);
      w := rest;
      var e := Visit(doc, node, open, checked).error;
      forall v, d | FaultAt(doc, node, open, v, d) ensures !Before(v, w) {
        if v != [] {
          var m :| IsPart(doc[node], v[0], m) && FaultAt(doc, m, open + {node}, v[1..], d);
        }
      }
    }
  }

  /** The same over the parts of a node from the `k`th on; those before have no fault. */
  lemma {:induction false} AllFindFirst(doc: Document, parent: nat, k: nat, open: set<nat>, checked: set<nat>)
    returns (w: seq<nat>)
    requires Closed(doc) && parent in doc && parent in open && AllLeadTo(doc, open - {parent}, parent)
    requires k <= |Children(doc[parent])|
    requires Finished(doc, checked) && open !! checked
    requires forall c :: c in Children(doc[parent])[k..] ==> c in doc
    requires VisitAll(doc, Children(doc[parent])[k..], open, checked).Refused?
    requires forall j: nat, v, d :: j < k ==> !FaultAt(doc, Children(doc[parent])[j], open, v, d)
    ensures var e := VisitAll(doc, Children(doc[parent])[k..], open, checked).error;
            var c := Children(doc[parent]);
            && w != [] && w[0] < |c| && IsFirstFault(doc, c[w[0]], open, w[1..], e)
            && forall j: nat, v, d :: j < w[0] ==> !FaultAt(doc, c[j], open, v, d)
    decreases doc.Keys - open, 2, |Children(doc[parent])| - k
  {
    var children := Children(doc[parent]);
    var c := children[k];
    assert children[k..][0] == c && children[k..][1..] == children[k + 1..];
    assert Holds(doc[parent], c) by { ChildrenAreHeld(doc[parent]); }
    Edge(doc, parent, c);
    forall o | o in open ensures LeadsTo(doc, o, c) {
      if o != parent {
        assert LeadsTo(doc, o, parent);
        ReachesOn(doc, o, parent, c);
      }
    }
    var here := VisitFindsFirst(doc, c, open, checked);
    match Visit(doc, c, open, checked) {
      case Refused(e) =>
        w := [k] + here;
        assert w[1..] == here;
      case Accepted(after) =>
        VisitMeans(doc, c, open, checked);
        w := AllFindFirst(doc, parent, k + 1, open, after);
    }
  }

  /** The error is that of the first walk from the root that comes to a fault, and there is no
      error exactly when there is no such walk: remembering the checked nodes changes nothing. */
  lemma FirstFaultReported(doc: Document, root: nat) returns (w: seq<nat>)
    requires Closed(doc) && root in doc
    ensures var r := Visit(doc, root, {}, {});
            && (r.Accepted? <==> forall v, d :: !FaultAt(doc, root, {}, v, d))
            && (r.Refused? ==> IsFirstFault(doc, root, {}, w, r.error))
  {
    w := VisitFindsFirst(doc, root, {}, {});
    assert Visit(doc, root, {}, {}).Refused? ==> FaultAt(doc, root, {}, w, Visit(doc, root, {}, {}).error);
  }

  // ---------- The loop ----------

  /** A stack entry: `(node, leaving)`. The top is last. */
  datatype Mark = Enter(node: nat) | Leave(node: nat)

  /** `stack.extend((child, False) for child in reversed(children))`. */
  function Pending(nodes: seq<nat>): (marks: seq<Mark>)
    ensures |marks| == |nodes| && forall i :: 0 <= i < |marks| ==> marks[i] == Enter(nodes[|nodes| - 1 - i])
  {
    if nodes == [] then [] else Pending(nodes[1..]) + [Enter(nodes[0])]
  }

  ghost predicate StackIn(doc: Document, stack: seq<Mark>) {
    forall i :: 0 <= i < |stack| ==> stack[i].node in doc
  }

  /** What is left to do: each mark, from the top, as the recursion would do it. */
  ghost function Rest(doc: Document, stack: seq<Mark>, open: set<nat>, checked: set<nat>): Outcome
    requires Closed(doc) && StackIn(doc, stack)
    decreases |stack|
  {
    if stack == [] then Accepted(checked) else
      var below := stack[..|stack| - 1];
      match stack[|stack| - 1]
      case Leave(n) => Rest(doc, below, open - {n}, checked + {n})
      case Enter(n) =>
        match Visit(doc, n, open, checked)
        case Refused(e) => Refused(e)
        case Accepted(after) => Rest(doc, below, open, after)
  }

  lemma {:induction false} RestOfPending(doc: Document, below: seq<Mark>, nodes: seq<nat>, open: set<nat>,
                                         checked: set<nat>)
    requires Closed(doc) && StackIn(doc, below) && forall c :: c in nodes ==> c in doc
    ensures StackIn(doc, below + Pending(nodes))
    ensures Rest(doc, below + Pending(nodes), open, checked)
            == match VisitAll(doc, nodes, open, checked)
               case Refused(e) => Refused(e)
               case Accepted(after) => Rest(doc, below, open, after)
    decreases |nodes|
  {
    if nodes == [] {
      assert below + Pending(nodes) == below;
    } else {
      var stack := below + Pending(nodes);
      assert stack[..|stack| - 1] == below + Pending(nodes[1..]);
      match Visit(doc, nodes[0], open, checked) {
        case Refused(e) => assert StackIn(doc, stack);
        case Accepted(after) => RestOfPending(doc, below, nodes[1..], open, after);
      }
    }
  }

  /** Replacing a fresh collection by its leave mark and its children changes nothing. */
  lemma RestOfExpanded(doc: Document, below: seq<Mark>, n: nat, open: set<nat>, checked: set<nat>)
    requires Closed(doc) && StackIn(doc, below) && n in doc && n !in checked && n !in open
    requires !doc[n].Scalar? && !HasDuplicate(doc[n])
    ensures StackIn(doc, below + [Leave(n)] + Pending(Children(doc[n])))
    ensures Rest(doc, below + [Leave(n)] + Pending(Children(doc[n])), open + {n}, checked)
            == Rest(doc, below + [Enter(n)], open, checked)
  {
    ChildrenAreHeld(doc[n]);
    assert (below + [Leave(n)])[..|below|] == below && (below + [Enter(n)])[..|below|] == below;
    RestOfPending(doc, below + [Leave(n)], Children(doc[n]), open + {n}, checked);
    assert open + {n} - {n} == open;
  }

  ghost function Cost(doc: Document, nodes: seq<nat>): nat
    requires forall n :: n in nodes ==> n in doc
  {
    if nodes == [] then 0
    else Cost(doc, nodes[..|nodes| - 1]) + 1 + |Children(doc[nodes[|nodes| - 1]])|
  }

  /** The `seen` loop over one mapping's keys. */
  method FindDuplicate(entries: seq<(string, nat)>) returns (i: nat)
    ensures i == FirstDuplicate(entries, 0)
  {
    var seen: set<string> := {};
    i := 0;
    while i < |entries|
      invariant i <= |entries| && seen == set j | 0 <= j < i :: entries[j].0
      invariant FirstDuplicate(entries, i) == FirstDuplicate(entries, 0)
    {
      if entries[i].0 in seen { return; }
      seen := seen + {entries[i].0};
      i := i + 1;
    }
  }

  /** The walk agrees with the recursion, error included. It expands each node at most once, so
      its turns are bounded by one plus, for each node it expands, one and its children. */
  method RejectDuplicateKeys(doc: Document, root: nat)
    returns (error: Option<Error>, ghost expanded: seq<nat>, ghost turns: nat)
    requires Closed(doc) && root in doc
    ensures match Visit(doc, root, {}, {})
            case Accepted(_) => error == None
            case Refused(e) => error == Some(e)
    ensures error == None <==> AllSound(doc, root)
    ensures error.Some? ==> exists w :: IsFirstFault(doc, root, {}, w, error.value)
    ensures forall n :: n in expanded ==> n in doc
    ensures forall i, j :: 0 <= i < j < |expanded| ==> expanded[i] != expanded[j]
    ensures turns <= 1 + Cost(doc, expanded)
  {
    AcceptedIffSound(doc, root);
    ghost var w := FirstFaultReported(doc, root);
    hide AllSound, IsFirstFault;
    var checked: set<nat>, open: set<nat> := {}, {};
    var stack := [Enter(root)];
    expanded, turns := [], 0;
    while stack != []
      invariant StackIn(doc, stack)
      invariant Rest(doc, stack, open, checked) == Visit(doc, root, {}, {})
      invariant forall n :: n in expanded ==> n in doc && (n in open || n in checked)
      invariant forall i, j :: 0 <= i < j < |expanded| ==> expanded[i] != expanded[j]
      invariant turns + |stack| <= 1 + Cost(doc, expanded)
      decreases doc.Keys - open - checked, |stack|
    {
      var mark, below := stack[|stack| - 1], stack[..|stack| - 1];
      assert stack == below + [mark];
      stack, turns := below, turns + 1;
      var n := mark.node;
      ghost var white := doc.Keys - open - checked;
      if mark.Leave? {
        open, checked := open - {n}, checked + {n};
        assert doc.Keys - open - checked == white - {n};
        continue;
      }
      if n in checked { continue; }
      if n in open { return Some(RecursiveAlias(n)), expanded, turns; }
      if doc[n].Scalar? {
        checked := checked + {n};
        assert doc.Keys - open - checked == white - {n};
        continue;
      }
      if doc[n].Mapping? {
        var i := FindDuplicate(doc[n].entries);
        if i < |doc[n].entries| { return Some(DuplicateKey(n, i)), expanded, turns; }
      }
      RestOfExpanded(doc, below, n, open, checked);
      open := open + {n};
      assert doc.Keys - open - checked == white - {n} && n in white;
      assert (expanded + [n])[..|expanded|] == expanded;
      expanded := expanded + [n];
      stack := stack + [Leave(n)] + Pending(Children(doc[n]));
    }
    error := None;
  }
}
