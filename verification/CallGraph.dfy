/**
 The call graph the planner orders: which operations and transitions call which.

 A declaration key is represented by its place in the key order, so that only what the planner uses
 of a key is kept: equality and the order of `BTreeMap` and `BTreeSet`. A graph maps every node to
 the set of its callees; a callee that is not itself a node is a reference to nothing.
 */
module CallGraph {
  import opened SortDedup

  type Key = nat

  type Graph = map<Key, set<Key>>

  predicate Edge(g: Graph, a: Key, b: Key) {
    a in g && b in g && b in g[a]
  }

  ghost predicate IsPath(g: Graph, p: seq<Key>) {
    && 0 < |p|
    && p[0] in g
    && forall i :: 0 <= i < |p| - 1 ==> Steps(g, p, i)
  }

  predicate Steps(g: Graph, p: seq<Key>, i: nat)
    requires i < |p| - 1
  {
    Edge(g, p[i], p[i + 1])
  }

  ghost predicate Connects(g: Graph, p: seq<Key>, a: Key, b: Key) {
    IsPath(g, p) && p[0] == a && p[|p| - 1] == b
  }

  /** `a` reaches `b` through callees that are themselves nodes. */
  ghost predicate Reach(g: Graph, a: Key, b: Key) {
    exists p :: Connects(g, p, a, b)
  }

  ghost predicate Mutual(g: Graph, a: Key, b: Key) {
    Reach(g, a, b) && Reach(g, b, a)
  }

  /** A set no edge leaves. */
  ghost predicate Closed(g: Graph, s: set<Key>) {
    forall a, b {:trigger Edge(g, a, b)} :: a in s && Edge(g, a, b) ==> b in s
  }

  lemma ReachSelf(g: Graph, a: Key)
    requires a in g
    ensures Reach(g, a, a)
  {
    assert Connects(g, [a], a, a);
  }

  lemma ReachEdge(g: Graph, a: Key, b: Key)
    requires Edge(g, a, b)
    ensures Reach(g, a, b)
  {
    assert Steps(g, [a, b], 0);
    assert Connects(g, [a, b], a, b);
  }

  lemma ReachTrans(g: Graph, a: Key, b: Key, c: Key)
    requires Reach(g, a, b) && Reach(g, b, c)
    ensures Reach(g, a, c)
  {
    var p :| Connects(g, p, a, b);
    var q :| Connects(g, q, b, c);
    var r := p + q[1..];
    forall i | 0 <= i < |r| - 1 ensures Steps(g, r, i) {
      if i < |p| - 1 {
        assert Steps(g, p, i);
      } else {
        assert Steps(g, q, i - |p| + 1);
      }
    }
    assert Connects(g, r, a, c);
  }

  /** Reachability never leaves a closed set. */
  lemma ReachClosed(g: Graph, s: set<Key>, a: Key, b: Key)
    requires Closed(g, s) && a in s && Reach(g, a, b)
    ensures b in s
  {
    var p :| Connects(g, p, a, b);
    PathClosed(g, s, p, |p| - 1);
  }

  lemma PathClosed(g: Graph, s: set<Key>, p: seq<Key>, k: nat)
    requires Closed(g, s) && IsPath(g, p) && p[0] in s && k < |p|
    ensures p[k] in s
  {
    if k > 0 {
      PathClosed(g, s, p, k - 1);
      assert Steps(g, p, k - 1);
    }
  }

  predicate KeyLess(a: Key, b: Key) {
    a < b
  }

  lemma KeysOrdered()
    ensures StrictOrder(KeyLess)
  {
  }

  /** The least key of a nonempty set. */
  function Least(s: set<Key>): (k: Key)
    requires s != {}
    ensures k in s && forall x :: x in s ==> k <= x
  {
    KeysOrdered();
    LeastOf(KeyLess, s)
  }

  /** A set's keys in ascending order, as a `BTreeSet` iterates. */
  function Ascending(s: set<Key>): (keys: seq<Key>)
    ensures forall x :: x in keys <==> x in s
    ensures |keys| == |s|
    ensures forall i, j :: 0 <= i < j < |keys| ==> keys[i] < keys[j]
  {
    KeysOrdered();
    Ordered(KeyLess, s)
  }
}
