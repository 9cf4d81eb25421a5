/**
 The strongly connected components of a call graph, by Tarjan's algorithm.

 `Walk` is the source's walk: numbered nodes, low marks, a stack and the components found so far, all
 updated in place by a recursive visit. `State` is its value at one moment, on which the invariants
 are stated: the methods change the fields, the lemmas reason about states.

 `gray` is the set of nodes whose visit has begun and not ended. The source keeps it only in its
 recursion stack.
 */
module Tarjan {
  import opened CallGraph

  /** `next` is how many nodes are numbered: the number the next one gets. */
  datatype State = State(
    next: nat,
    index: map<Key, nat>,
    low: map<Key, nat>,
    stack: seq<Key>,
    onStack: set<Key>,
    components: seq<set<Key>>)

  /** The nodes of a list of components. */
  ghost function Members(components: seq<set<Key>>): set<Key> {
    set i, x | 0 <= i < |components| && x in components[i] :: x
  }

  lemma MembersPush(components: seq<set<Key>>, c: set<Key>)
    ensures Members(components + [c]) == Members(components) + c
  {
    var more := components + [c];
    forall x | x in Members(components) ensures x in Members(more) {
      var i :| 0 <= i < |components| && x in components[i];
      assert x in more[i];
    }
    forall x | x in c ensures x in Members(more) {
      assert x in more[|components|];
    }
  }

  ghost predicate PlacedBy(components: seq<set<Key>>, i: nat, x: Key) {
    exists j :: 0 <= j <= i && j < |components| && x in components[j]
  }

  /** Each component is a class of mutual reachability, and calls only into itself and earlier ones. */
  ghost predicate Components(g: Graph, components: seq<set<Key>>) {
    && (forall i :: 0 <= i < |components| ==> components[i] != {})
    && (forall i, j :: 0 <= i < j < |components| ==> components[i] !! components[j])
    && (forall i, x, y {:trigger components[i], Mutual(g, x, y)} :: 0 <= i < |components| && x in components[i] ==>
          (y in components[i] <==> Mutual(g, x, y)))
    && (forall i, x, y {:trigger components[i], Edge(g, x, y)} ::
         0 <= i < |components| && x in components[i] && Edge(g, x, y) ==>
          PlacedBy(components, i, y))
  }

  ghost predicate Numbered(g: Graph, s: State) {
    && s.index.Keys == s.low.Keys
    && s.index.Keys <= g.Keys
    && (forall x :: x in s.index ==> s.index[x] < s.next)
    && (forall x, y :: x in s.index && y in s.index && s.index[x] == s.index[y] ==> x == y)
  }

  ghost predicate Stacked(s: State) {
    && (forall x :: x in s.onStack <==> x in s.stack)
    && (forall i :: 0 <= i < |s.stack| ==> s.stack[i] in s.index)
    && (forall i, j :: 0 <= i < j < |s.stack| && s.stack[i] in s.index && s.stack[j] in s.index ==>
          s.index[s.stack[i]] < s.index[s.stack[j]])
  }

  ghost predicate ReachesOneOf(g: Graph, x: Key, gray: set<Key>) {
    exists y :: y in gray && Reach(g, x, y)
  }

  ghost predicate Inv(g: Graph, s: State, gray: set<Key>) {
    && Numbered(g, s)
    && Stacked(s)
    && Closed(g, Members(s.components))
    && s.index.Keys == s.onStack + Members(s.components)
    && s.onStack !! Members(s.components)
    && gray <= s.onStack
    && (forall x, y {:trigger Edge(g, x, y)} :: x in s.index.Keys - gray && Edge(g, x, y) ==> y in s.index)
    && (forall x {:trigger ReachesOneOf(g, x, gray)} :: x in s.onStack ==> ReachesOneOf(g, x, gray))
  }

  /** What a visit leaves alone: the numbers and marks given before, and the stack below. */
  ghost predicate Extends(s0: State, s: State) {
    && s0.index.Keys <= s.index.Keys && s0.low.Keys <= s.low.Keys
    && (forall x :: x in s0.index ==> s.index[x] == s0.index[x])
    && (forall x :: x in s0.low ==> s.low[x] == s0.low[x])
    && s0.next <= s.next && s0.onStack <= s.onStack && s0.stack <= s.stack
  }

  /** The nodes a visit has added to the stack: those above the stack it began with. */
  ghost function Above(s0: State, s: State): set<Key> {
    s.onStack - s0.onStack
  }

  /** `low` is the number of a node that `node` reaches. */
  ghost predicate Witness(g: Graph, s: State, node: Key, low: nat, z: Key) {
    z in s.index && s.index[z] == low && Reach(g, node, z)
  }

  /** The mark of `node` is its own number, or that of an older node it reaches on the stack. */
  ghost predicate Marked(g: Graph, s0: State, s: State, node: Key) {
    && node in s.index && node in s.low
    && s.low[node] <= s.index[node]
    && (s.low[node] == s.index[node] || exists z :: z in s0.onStack && Witness(g, s, node, s.low[node], z))
  }

  /** No node above calls an older one on the stack that is numbered below the mark. */
  ghost predicate Bounded(g: Graph, s0: State, s: State, low: nat, node: Key, seen: set<Key>) {
    forall x, y {:trigger Edge(g, x, y)} ::
      x in Above(s0, s) && y in s0.onStack && Edge(g, x, y) && (x == node ==> y in seen) ==>
      y in s.index && low <= s.index[y]
  }

  /** The state partway through visiting `node`, once its callees in `seen` are processed. */
  ghost predicate Visiting(g: Graph, s0: State, s: State, gray: set<Key>, node: Key, seen: set<Key>) {
    && Inv(g, s, gray + {node})
    && Extends(s0, s)
    && node !in s0.index
    && Marked(g, s0, s, node)
    && s.index[node] == s0.next
    && s0.stack + [node] <= s.stack
    && (forall x :: x in Above(s0, s) ==> Reach(g, node, x) && x !in s0.index)
    && (forall y {:trigger Edge(g, node, y)} :: y in seen && Edge(g, node, y) ==> y in s.index)
    && Bounded(g, s0, s, s.low[node], node, seen)
  }

  /** The state after visiting `node`: either its component is closed, or `node` waits on the stack. */
  ghost predicate Visited(g: Graph, s0: State, s: State, gray: set<Key>, node: Key) {
    && Inv(g, s, gray)
    && Extends(s0, s)
    && Marked(g, s0, s, node)
    && s.index[node] == s0.next
    && (s.low[node] == s.index[node] ==> s.stack == s0.stack)
    && (forall x :: x in Above(s0, s) ==> Reach(g, node, x) && x !in s0.index)
    && (forall x, y {:trigger Edge(g, x, y)} :: x in Above(s0, s) && y in s0.onStack && Edge(g, x, y) ==>
         s.low[node] <= s.index[y])
  }

  function Enter(s: State, node: Key): State {
    s.(next := s.next + 1, index := s.index[node := s.next], low := s.low[node := s.next],
       stack := s.stack + [node], onStack := s.onStack + {node})
  }

  function SetLow(s: State, node: Key, low: nat): State {
    s.(low := s.low[node := low])
  }

  function Lower(a: nat, b: nat): nat {
    if a < b then a else b
  }

  function From(keys: seq<Key>, n: nat): set<Key>
    requires n <= |keys|
  {
    set x | x in keys[n..]
  }

  /** Closes the component of the nodes from place `n` of the stack up. */
  function Close(s: State, n: nat): State
    requires n <= |s.stack|
  {
    var component := From(s.stack, n);
    s.(stack := s.stack[..n], onStack := s.onStack - component, components := s.components + [component])
  }

  lemma EnterVisiting(g: Graph, s: State, gray: set<Key>, node: Key)
    requires Inv(g, s, gray) && node in g && node !in s.index
    ensures Visiting(g, s, Enter(s, node), gray, node, {})
  {
    hide Reach, ReachesOneOf, Numbered, Stacked, Closed, Members;
    EnterInv(g, s, gray, node);
    assert node !in s.onStack && node !in s.low && s.onStack <= s.index.Keys by { NumberedKeys(g, s); }
    hide Inv;
    assert Above(s, Enter(s, node)) == {node};
    ReachSelf(g, node);
  }

  lemma NumberedKeys(g: Graph, s: State)
    requires Numbered(g, s)
    ensures s.low.Keys == s.index.Keys <= g.Keys
  {
  }

  lemma EnterInv(g: Graph, s: State, gray: set<Key>, node: Key)
    requires Inv(g, s, gray) && node in g && node !in s.index
    ensures Inv(g, Enter(s, node), gray + {node})
  {
    hide Reach, Closed, Members, Numbered, Stacked, ReachesOneOf;
    var t := Enter(s, node);
    EnterNumbered(g, s, node);
    assert t.index.Keys == s.index.Keys + {node};
    forall x | x in t.onStack ensures ReachesOneOf(g, x, gray + {node}) {
      assert x in s.onStack ==> ReachesOneOf(g, x, gray);
      EnterReaches(g, x, gray, node);
    }
  }

  lemma EnterReaches(g: Graph, x: Key, gray: set<Key>, node: Key)
    requires node in g && (x == node || ReachesOneOf(g, x, gray))
    ensures ReachesOneOf(g, x, gray + {node})
  {
    ReachSelf(g, node);
  }

  lemma EnterNumbered(g: Graph, s: State, node: Key)
    requires Numbered(g, s) && Stacked(s) && node in g && node !in s.index
    ensures Numbered(g, Enter(s, node)) && Stacked(Enter(s, node))
  {
  }

  lemma SeenMore(g: Graph, s0: State, s: State, gray: set<Key>, node: Key, seen: set<Key>, callee: Key)
    requires Visiting(g, s0, s, gray, node, seen)
    requires callee !in g || (callee in s.index && callee !in s.onStack)
    ensures Visiting(g, s0, s, gray, node, seen + {callee})
  {
  }

  /** What is on the stack during a visit is older than the visited node exactly when numbered lower. */
  lemma OlderIsLower(s0: State, s: State, node: Key, z: Key)
    requires Stacked(s0) && Stacked(s) && Extends(s0, s)
    requires s0.stack + [node] <= s.stack
    requires z in s.onStack
    ensures z in s.index && node in s.index
    ensures z in s0.onStack <==> s.index[z] < s.index[node]
  {
    var n := |s0.stack|;
    var i :| 0 <= i < |s.stack| && s.stack[i] == z;
    assert s.stack[n] == node;
    if i < n {
      assert s0.stack[i] == z;
    } else {
      forall j | 0 <= j < n ensures s0.stack[j] != z {
        assert s.stack[j] == s0.stack[j];
      }
    }
  }

  lemma LowerMark(g: Graph, s0: State, s: State, gray: set<Key>, node: Key, seen: set<Key>, callee: Key)
    requires Inv(g, s0, gray) && Visiting(g, s0, s, gray, node, seen)
    requires Edge(g, node, callee) && callee in s.onStack
    ensures Visiting(g, s0, SetLow(s, node, Lower(s.index[callee], s.low[node])), gray, node, seen + {callee})
  {
    hide Reach, ReachesOneOf, Inv, Bounded, Marked;
    OlderOnStack(g, s0, s, gray, node, seen, callee);
    var low := Lower(s.index[callee], s.low[node]);
    var t := SetLow(s, node, low);
    SetLowInv(g, s, gray + {node}, node, low);
    LowerMarkMarked(g, s0, s, node, callee);
    LowerMarkBounded(g, s0, s, node, seen, callee);
    assert Extends(s0, t);
  }

  lemma OlderOnStack(g: Graph, s0: State, s: State, gray: set<Key>, node: Key, seen: set<Key>, callee: Key)
    requires Inv(g, s0, gray) && Visiting(g, s0, s, gray, node, seen) && callee in s.onStack
    ensures callee in s.index && node in s.low && node in s.onStack && node !in s0.low
    ensures callee in s0.onStack <==> s.index[callee] < s.index[node]
  {
    hide Reach, ReachesOneOf;
    OlderIsLower(s0, s, node, callee);
  }

  lemma LowerMarkBounded(g: Graph, s0: State, s: State, node: Key, seen: set<Key>, callee: Key)
    requires node in s.low && callee in s.index && Bounded(g, s0, s, s.low[node], node, seen)
    ensures var low := Lower(s.index[callee], s.low[node]);
            Bounded(g, s0, SetLow(s, node, low), low, node, seen + {callee})
  {
  }

  lemma SetLowInv(g: Graph, s: State, gray: set<Key>, node: Key, low: nat)
    requires Inv(g, s, gray) && node in s.low
    ensures Inv(g, SetLow(s, node, low), gray)
  {
    assert SetLow(s, node, low).low.Keys == s.low.Keys;
  }

  lemma LowerMarkMarked(g: Graph, s0: State, s: State, node: Key, callee: Key)
    requires Marked(g, s0, s, node) && Edge(g, node, callee) && callee in s.index
    requires callee in s0.onStack <==> s.index[callee] < s.index[node]
    ensures Marked(g, s0, SetLow(s, node, Lower(s.index[callee], s.low[node])), node)
  {
    var low := Lower(s.index[callee], s.low[node]);
    var t := SetLow(s, node, low);
    ReachEdge(g, node, callee);
    if s.index[callee] < s.low[node] {
      assert callee in s0.onStack && Witness(g, t, node, low, callee);
    } else if s.low[node] != s.index[node] {
      var z :| z in s0.onStack && Witness(g, s, node, s.low[node], z);
      assert Witness(g, t, node, low, z);
    }
  }

  /** After the visit of a callee: its mark, when lower, is the node's. */
  lemma AfterVisit(g: Graph, s0: State, s: State, t: State, gray: set<Key>, node: Key, seen: set<Key>, callee: Key)
    requires Inv(g, s0, gray) && Visiting(g, s0, s, gray, node, seen)
    requires Edge(g, node, callee) && callee !in s.index
    requires Visited(g, s, t, gray + {node}, callee)
    ensures Visiting(g, s0, SetLow(t, node, Lower(t.low[callee], t.low[node])), gray, node, seen + {callee})
  {
    hide Reach, ReachesOneOf, Inv, Marked, Bounded, Stacked;
    AfterVisitFacts(g, s0, s, t, gray, node, seen, callee);
    var low := Lower(t.low[callee], t.low[node]);
    SetLowInv(g, t, gray + {node}, node, low);
    AfterVisitMarked(g, s0, s, t, node, callee);
    AfterVisitBounded(g, s0, s, t, node, seen, callee);
    assert Above(s0, t) == Above(s0, s) + Above(s, t);
    forall x | x in Above(s, t) ensures Reach(g, node, x) {
      ReachEdge(g, node, callee);
      ReachTrans(g, node, callee, x);
    }
  }

  lemma AfterVisitFacts(g: Graph, s0: State, s: State, t: State, gray: set<Key>, node: Key, seen: set<Key>, callee: Key)
    requires Inv(g, s0, gray) && Visiting(g, s0, s, gray, node, seen)
    requires callee !in s.index && Visited(g, s, t, gray + {node}, callee)
    ensures Stacked(s0) && Stacked(s) && s0.index.Keys == s0.low.Keys
    ensures s.index[node] < t.index[callee] && callee !in s0.onStack
    ensures node in s.index && node in s.low && node in t.low && callee in t.low && callee in t.index &&
            node in s.onStack
    ensures forall x :: x in s0.onStack ==> x in t.index
    ensures forall x :: x in s.onStack ==> x in t.index
  {
    hide Reach, ReachesOneOf;
  }

  lemma AfterVisitBounded(g: Graph, s0: State, s: State, t: State, node: Key, seen: set<Key>, callee: Key)
    requires Extends(s0, s) && Extends(s, t) && node in s.low && callee in t.low && callee in t.index
    requires callee !in s0.onStack && node in s.onStack
    requires Bounded(g, s0, s, s.low[node], node, seen)
    requires forall x, y {:trigger Edge(g, x, y)} ::
               x in Above(s, t) && y in s.onStack && Edge(g, x, y) ==> y in t.index && t.low[callee] <= t.index[y]
    ensures Bounded(g, s0, SetLow(t, node, Lower(t.low[callee], t.low[node])), Lower(t.low[callee], t.low[node]),
                    node, seen + {callee})
  {
  }

  lemma AfterVisitMarked(g: Graph, s0: State, s: State, t: State, node: Key, callee: Key)
    requires Stacked(s0) && Stacked(s) && Extends(s0, s) && Extends(s, t)
    requires s0.stack + [node] <= s.stack
    requires Marked(g, s0, s, node) && Marked(g, s, t, callee)
    requires Edge(g, node, callee) && s.index[node] < t.index[callee]
    ensures Marked(g, s0, SetLow(t, node, Lower(t.low[callee], t.low[node])), node)
  {
    var low := Lower(t.low[callee], t.low[node]);
    var u := SetLow(t, node, low);
    if t.low[callee] < t.low[node] {
      var z :| z in s.onStack && Witness(g, t, callee, t.low[callee], z);
      OlderIsLower(s0, s, node, z);
      ReachEdge(g, node, callee);
      ReachTrans(g, node, callee, z);
      assert z in s0.onStack && Witness(g, u, node, low, z);
    } else if s.low[node] != s.index[node] {
      var z :| z in s0.onStack && Witness(g, s, node, s.low[node], z);
      assert Witness(g, u, node, low, z);
    }
  }

  /** A visit that ends with a lower mark leaves its nodes waiting: all reach an unfinished caller. */
  lemma FinishWaiting(g: Graph, s0: State, s: State, gray: set<Key>, node: Key)
    requires node in g && Inv(g, s0, gray) && Visiting(g, s0, s, gray, node, g[node])
    requires s.low[node] != s.index[node]
    ensures Visited(g, s0, s, gray, node)
  {
    hide Reach, ReachesOneOf, Numbered, Stacked, Closed, Members;
    forall x | x in s.onStack ensures ReachesOneOf(g, x, gray) {
      assert ReachesOneOf(g, x, gray + {node});
      WaitsForCaller(g, s0, s, gray, node, x);
    }
  }

  lemma WaitsForCaller(g: Graph, s0: State, s: State, gray: set<Key>, node: Key, x: Key)
    requires Marked(g, s0, s, node) && s.low[node] != s.index[node]
    requires forall y {:trigger ReachesOneOf(g, y, gray)} :: y in s0.onStack ==> ReachesOneOf(g, y, gray)
    requires ReachesOneOf(g, x, gray + {node})
    ensures ReachesOneOf(g, x, gray)
  {
    var y :| y in gray + {node} && Reach(g, x, y);
    if y == node {
      var z :| z in s0.onStack && Witness(g, s, node, s.low[node], z);
      assert ReachesOneOf(g, z, gray);
      var c :| c in gray && Reach(g, z, c);
      ReachTrans(g, node, z, c);
      ReachTrans(g, x, node, c);
    }
  }

  /** The nodes above, with those already placed, call nothing outside. */
  lemma ClosedAbove(g: Graph, s0: State, s: State, gray: set<Key>, node: Key)
    requires node in g && Inv(g, s0, gray) && Visiting(g, s0, s, gray, node, g[node])
    requires s.low[node] == s.index[node]
    ensures Closed(g, Members(s.components) + Above(s0, s))
  {
    hide Reach, ReachesOneOf, Members;
    var placed, above := Members(s.components), Above(s0, s);
    forall x, y | x in placed + above && Edge(g, x, y) ensures y in placed + above {
      if x in above {
        assert y in s.index;
        if y in s0.onStack {
          OlderIsLower(s0, s, node, y);
        }
      }
    }
  }

  /** They are exactly the nodes that `node` reaches and that reach it back. */
  lemma ClosingIsAClass(g: Graph, s0: State, s: State, gray: set<Key>, node: Key, x: Key)
    requires node in g && Inv(g, s0, gray) && Visiting(g, s0, s, gray, node, g[node])
    requires s.low[node] == s.index[node]
    ensures x in Above(s0, s) <==> Mutual(g, node, x)
  {
    hide Reach, Closed, Bounded, Members;
    var placed, above := Members(s.components), Above(s0, s);
    ClosedAbove(g, s0, s, gray, node);
    OlderIsLower(s0, s, node, node);
    if x in above {
      assert ReachesOneOf(g, x, gray + {node});
      var y :| y in gray + {node} && Reach(g, x, y);
      ReachClosed(g, placed + above, x, y);
    } else if Mutual(g, node, x) {
      ReachClosed(g, placed + above, node, x);
      ReachClosed(g, placed, x, node);
    }
  }

  lemma MutualClass(g: Graph, c: set<Key>, node: Key)
    requires forall x :: x in c <==> Mutual(g, node, x)
    ensures forall x, y :: x in c ==> (y in c <==> Mutual(g, x, y))
  {
    forall x, y | x in c ensures y in c <==> Mutual(g, x, y) {
      if y in c {
        ReachTrans(g, x, node, y);
        ReachTrans(g, y, node, x);
      } else if Mutual(g, x, y) {
        ReachTrans(g, node, x, y);
        ReachTrans(g, y, x, node);
      }
    }
  }

  lemma ClosedComponents(g: Graph, components: seq<set<Key>>, c: set<Key>, node: Key)
    requires Components(g, components) && c != {} && c !! Members(components)
    requires forall x :: x in c <==> Mutual(g, node, x)
    requires Closed(g, Members(components) + c)
    ensures Components(g, components + [c])
  {
    var more := components + [c];
    MutualClass(g, c, node);
    MembersPush(components, c);
    forall i, x, y | 0 <= i < |more| && x in more[i] && Edge(g, x, y) ensures PlacedBy(more, i, y) {
      if i < |components| {
        assert PlacedBy(components, i, y);
        var j :| 0 <= j <= i && j < |components| && y in components[j];
        assert y in more[j];
      } else {
        assert y in Members(more);
        var j :| 0 <= j < |more| && y in more[j];
      }
    }
    forall i, j | 0 <= i < j < |more| ensures more[i] !! more[j] {
      if j == |components| {
        forall x | x in more[i] ensures x !in c { assert x in components[i]; }
      }
    }
  }

  lemma FinishClosing(g: Graph, s0: State, s: State, gray: set<Key>, node: Key)
    requires node in g && Inv(g, s0, gray) && Visiting(g, s0, s, gray, node, g[node])
    requires s.low[node] == s.index[node] && Components(g, s.components)
    ensures Visited(g, s0, Close(s, |s0.stack|), gray, node)
    ensures Components(g, Close(s, |s0.stack|).components)
  {
    var above := Above(s0, s);
    var t := Close(s, |s0.stack|);
    ClosingStack(s0, s, node);
    ClosedAbove(g, s0, s, gray, node);
    assert Components(g, t.components) by {
      forall x ensures x in above <==> Mutual(g, node, x) { ClosingIsAClass(g, s0, s, gray, node, x); }
      OlderIsLower(s0, s, node, node);
      ClosedComponents(g, s.components, above, node);
    }
    MembersPush(s.components, above);
    ClosingInv(g, s0, s, gray, node);
    assert Above(s0, t) == {};
  }

  lemma ClosingInv(g: Graph, s0: State, s: State, gray: set<Key>, node: Key)
    requires node in g && Inv(g, s0, gray) && Visiting(g, s0, s, gray, node, g[node])
    requires Closed(g, Members(s.components) + Above(s0, s))
    ensures Inv(g, s.(stack := s0.stack, onStack := s0.onStack, components := s.components + [Above(s0, s)]), gray)
  {
    var t := s.(stack := s0.stack, onStack := s0.onStack, components := s.components + [Above(s0, s)]);
    MembersPush(s.components, Above(s0, s));
    OlderIsLower(s0, s, node, node);
    assert Numbered(g, t);
    assert Stacked(t);
  }

  /** What is popped is what the visit added. */
  lemma ClosingStack(s0: State, s: State, node: Key)
    requires Stacked(s0) && Stacked(s) && Extends(s0, s) && s0.stack + [node] <= s.stack
    ensures Close(s, |s0.stack|) ==
            s.(stack := s0.stack, onStack := s0.onStack, components := s.components + [Above(s0, s)])
  {
    var n := |s0.stack|;
    var popped := From(s.stack, n);
    assert s.stack[..n] == s0.stack;
    forall x ensures x in popped <==> x in Above(s0, s) {
      PoppedIsAbove(s0, s, node, x);
    }
    assert popped == Above(s0, s);
    assert s.onStack - popped == s0.onStack;
  }

  lemma PoppedIsAbove(s0: State, s: State, node: Key, x: Key)
    requires Stacked(s0) && Stacked(s) && Extends(s0, s) && s0.stack + [node] <= s.stack
    ensures x in s.stack[|s0.stack|..] <==> x in Above(s0, s)
  {
    var n := |s0.stack|;
    assert s.stack[n] == node;
    if x in s.stack[n..] {
      var i :| n <= i < |s.stack| && s.stack[i] == x;
      OlderIsLower(s0, s, node, x);
    } else {
      forall i | 0 <= i < |s.stack| ensures s.stack[i] == x ==> i < n && s0.stack[i] == x {
        if n <= i { assert s.stack[n..][i - n] == s.stack[i]; }
      }
    }
  }

  /** The first `n` keys of a list, as a set. */
  ghost function Heads(keys: seq<Key>, n: nat): set<Key>
    requires n <= |keys|
  {
    set x | x in keys[..n]
  }

  lemma OneMore(m: map<Key, nat>, k: Key, v: nat)
    requires k !in m
    ensures |m[k := v]| == |m| + 1
  {
    assert m[k := v].Keys == m.Keys + {k};
  }

  class Walk {
    const callees: Graph
    var index: map<Key, nat>
    var low: map<Key, nat>
    var stack: seq<Key>
    var onStack: set<Key>
    var components: seq<set<Key>>

    ghost function View(): State
      reads this
    {
      State(|index|, index, low, stack, onStack, components)
    }

    constructor (callees: Graph)
      ensures this.callees == callees && View() == State(0, map[], map[], [], {}, [])
    {
      this.callees := callees;
      index, low, stack, onStack, components := map[], map[], [], {}, [];
    }

    method Visit(node: Key, ghost gray: set<Key>)
      requires Inv(callees, View(), gray) && Components(callees, components)
      requires node in callees && node !in index
      modifies this
      ensures Visited(callees, old(View()), View(), gray, node)
      ensures Components(callees, components)
      decreases Rest(callees.Keys, index.Keys)
    {
      hide Inv, Visiting, Visited, Components, Heads, Reach, Rest, Ascending, Stacked, Numbered;
      ghost var s0 := View();
      var number := |index|;
      index := index[node := number];
      low := low[node := number];
      stack := stack + [node];
      onStack := onStack + {node};
      OneMore(s0.index, node, number);
      EnterVisiting(callees, s0, gray, node);

      var order := Ascending(callees[node]);
      AllHeads(order, callees[node]);
      for i := 0 to |order|
        invariant Visiting(callees, s0, View(), gray, node, Heads(order, i))
        invariant Components(callees, components)
      {
        var callee := order[i];
        ghost var seen, s := Heads(order, i), View();
        VisitingFacts(callees, s0, s, gray, node, seen);
        OneMoreHead(order, i);
        if callee !in callees {
          SeenMore(callees, s0, s, gray, node, seen, callee);
        } else if callee !in index {
          SmallerRest(callees.Keys, s0.index.Keys, index.Keys, node);
          Visit(callee, gray + {node});
          ghost var t := View();
          AfterVisitFacts(callees, s0, s, t, gray, node, seen, callee);
          low := low[node := Lower(low[callee], low[node])];
          AfterVisit(callees, s0, s, t, gray, node, seen, callee);
        } else if callee in onStack {
          low := low[node := Lower(index[callee], low[node])];
          LowerMark(callees, s0, s, gray, node, seen, callee);
        } else {
          SeenMore(callees, s0, s, gray, node, seen, callee);
        }
      }

      ghost var s := View();
      VisitingFacts(callees, s0, s, gray, node, callees[node]);
      if low[node] == index[node] {
        CloseComponent(node, |s0.stack|);
        FinishClosing(callees, s0, s, gray, node);
      } else {
        FinishWaiting(callees, s0, s, gray, node);
      }
    }

    /** Pops the stack down to `node`, inclusive, into a new component. */
    method CloseComponent(node: Key, ghost n: nat)
      requires n < |stack| && stack[n] == node
      requires forall i, j :: 0 <= i < j < |stack| ==> stack[i] != stack[j]
      modifies this
      ensures View() == Close(old(View()), n)
    {
      var component: set<Key> := {};
      while |stack| > 0
        invariant n < |stack| <= |old(stack)| && stack == old(stack)[..|stack|]
        invariant component == From(old(stack), |stack|)
        invariant onStack == old(onStack) - component
        invariant index == old(index) && low == old(low) && components == old(components)
      {
        hide From;
        var member := stack[|stack| - 1];
        FromMore(old(stack), |stack| - 1);
        stack := stack[..|stack| - 1];
        onStack := onStack - {member};
        component := component + {member};
        if member == node { break; }
      }
      assert |stack| == n;
      components := components + [component];
    }
  }

  lemma FromMore(keys: seq<Key>, n: nat)
    requires n < |keys|
    ensures From(keys, n) == From(keys, n + 1) + {keys[n]}
  {
    assert keys[n..] == [keys[n]] + keys[n + 1..];
  }

  lemma AllHeads(keys: seq<Key>, s: set<Key>)
    requires forall x :: x in keys <==> x in s
    ensures Heads(keys, 0) == {} && Heads(keys, |keys|) == s
  {
    assert keys[..|keys|] == keys;
  }

  lemma OneMoreHead(keys: seq<Key>, n: nat)
    requires n < |keys|
    ensures Heads(keys, n + 1) == Heads(keys, n) + {keys[n]}
  {
    assert keys[..n + 1] == keys[..n] + [keys[n]];
  }

  lemma VisitingFacts(g: Graph, s0: State, s: State, gray: set<Key>, node: Key, seen: set<Key>)
    requires Inv(g, s0, gray) && Visiting(g, s0, s, gray, node, seen)
    ensures node in s.index && node in s.low && s0.index.Keys <= s.index.Keys && node !in s0.index
    ensures s.onStack <= s.index.Keys
    ensures Inv(g, s, gray + {node})
    ensures |s0.stack| < |s.stack| && s.stack[|s0.stack|] == node
    ensures forall i, j :: 0 <= i < j < |s.stack| ==> s.stack[i] != s.stack[j]
  {
    hide Reach, ReachesOneOf;
    assert s.stack[|s0.stack|] == (s0.stack + [node])[|s0.stack|];
  }

  /** How many nodes are still to be numbered. */
  ghost function Rest(all: set<Key>, numbered: set<Key>): nat {
    |all - numbered|
  }

  lemma SmallerRest(all: set<Key>, before: set<Key>, after: set<Key>, node: Key)
    requires before <= after && node in all && node !in before && node in after
    ensures Rest(all, after) < Rest(all, before)
  {
    assert all - after <= all - before - {node};
    SubsetSize(all - after, all - before - {node});
  }

  lemma SubsetSize(a: set<Key>, b: set<Key>)
    requires a <= b
    ensures |a| <= |b|
  {
    assert b == a + (b - a);
  }

  lemma NoneReached(g: Graph, x: Key)
    ensures !ReachesOneOf(g, x, {})
  {
  }

  /** With no visit in progress the stack is empty, so every numbered node is placed. */
  lemma NothingWaits(g: Graph, s: State)
    requires Inv(g, s, {})
    ensures s.stack == [] && Members(s.components) == s.index.Keys <= g.Keys
  {
    if s.stack != [] {
      NoneReached(g, s.stack[0]);
    }
    assert s.onStack == {};
  }

  /** Between visits. */
  ghost predicate Idle(g: Graph, s: State) {
    Inv(g, s, {}) && Components(g, s.components)
  }

  /** The components of a call graph: a partition of its nodes by mutual reachability. */
  method ComponentsOf(callees: Graph) returns (components: seq<set<Key>>)
    ensures Components(callees, components)
    ensures Members(components) == callees.Keys
  {
    hide Idle, Components, Members, Ascending;
    var walk := new Walk(callees);
    StartIdle(callees);
    var order := Ascending(callees.Keys);
    for i := 0 to |order|
      invariant fresh(walk) && Idle(callees, walk.View())
      invariant forall j :: 0 <= j < i ==> order[j] in walk.index
    {
      if order[i] !in walk.index {
        VisitIdle(walk, order[i]);
      }
    }
    AllSeen(callees, order, walk.View());
    components := walk.components;
  }

  method VisitIdle(walk: Walk, node: Key)
    requires Idle(walk.callees, walk.View()) && node in walk.callees && node !in walk.index
    modifies walk
    ensures Idle(walk.callees, walk.View())
    ensures old(walk.index).Keys <= walk.index.Keys && node in walk.index
  {
    hide Visited, Components, Inv;
    ghost var s := walk.View();
    walk.Visit(node, {});
    VisitedFacts(walk.callees, s, walk.View(), {}, node);
  }

  lemma AllSeen(g: Graph, order: seq<Key>, s: State)
    requires Idle(g, s) && (forall x :: x in order <==> x in g)
    requires forall j :: 0 <= j < |order| ==> order[j] in s.index
    ensures Components(g, s.components) && Members(s.components) == g.Keys
  {
    hide Inv, Components, Members;
    NothingWaits(g, s);
    forall x | x in g ensures x in s.index { assert x in order; }
  }

  lemma StartIdle(g: Graph)
    ensures Idle(g, State(0, map[], map[], [], {}, []))
  {
  }

  lemma VisitedFacts(g: Graph, s0: State, s: State, gray: set<Key>, node: Key)
    requires Visited(g, s0, s, gray, node)
    ensures Inv(g, s, gray) && s0.index.Keys <= s.index.Keys && node in s.index
  {
  }
}
