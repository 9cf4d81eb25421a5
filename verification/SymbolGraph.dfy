/**
 The semantic graph of one workspace revision: nodes by symbol, and adjacency in both directions.

 A symbol key and an edge kind are represented by their place in their order, a fingerprint by the
 content it is the fingerprint of.
 */
module SymbolGraph {
  import opened Common
  import opened SortDedup

  type Symbol = nat

  type Fingerprint = nat

  type Kind = nat

  type NodeId = nat

  datatype Node = Node(key: Symbol, version: nat, fingerprint: Fingerprint)

  datatype Row = Row(from: NodeId, kind: Kind, to: NodeId)

  datatype Edge = Edge(kind: Kind, to: NodeId)

  datatype Graph = Graph(nodes: seq<Node>, ids: map<Symbol, NodeId>, outgoing: seq<seq<Edge>>, incoming: seq<seq<Edge>>)

  const FIRST_VERSION: nat := 1

  predicate RowLess(a: Row, b: Row) {
    a.from < b.from ||
    (a.from == b.from && (a.kind < b.kind || (a.kind == b.kind && a.to < b.to)))
  }

  predicate EdgeLess(a: Edge, b: Edge) {
    a.kind < b.kind || (a.kind == b.kind && a.to < b.to)
  }

  /** The ids are exactly the positions of the nodes, by key. */
  ghost predicate Indexed(nodes: seq<Node>, ids: map<Symbol, NodeId>) {
    && (forall k :: k in ids ==> ids[k] < |nodes| && nodes[ids[k]].key == k)
    && (forall i :: 0 <= i < |nodes| ==> nodes[i].key in ids && ids[nodes[i].key] == i)
  }

  ghost predicate InRange(rows: seq<Row>, n: nat) {
    forall r :: r in rows ==> r.from < n && r.to < n
  }

  ghost predicate Targets(edges: seq<Edge>, n: nat) {
    forall e :: e in edges ==> e.to < n
  }

  /** Each direction is the other read backwards, edge by edge. */
  ghost predicate Transposed(g: Graph)
    requires |g.outgoing| == |g.incoming| == |g.nodes|
  {
    forall a, b, k {:trigger Edge(k, b) in g.outgoing[a]} {:trigger Edge(k, a) in g.incoming[b]} ::
      0 <= a < |g.nodes| && 0 <= b < |g.nodes| ==>
        (Edge(k, b) in g.outgoing[a] <==> Edge(k, a) in g.incoming[b])
  }

  /** What every build yields: indexed nodes, and adjacency that is ascending, unrepeated and transposed. */
  ghost predicate Sound(g: Graph) {
    && Indexed(g.nodes, g.ids)
    && |g.outgoing| == |g.incoming| == |g.nodes|
    && (forall a :: 0 <= a < |g.nodes| ==> Targets(g.outgoing[a], |g.nodes|) && Strict(EdgeLess, g.outgoing[a]))
    && (forall a :: 0 <= a < |g.nodes| ==> Targets(g.incoming[a], |g.nodes|) && Strict(EdgeLess, g.incoming[a]))
    && Transposed(g)
  }

  /** The node of a symbol, if it has one. */
  function NodeOf(g: Graph, key: Symbol): (node: Option<Node>)
    requires Indexed(g.nodes, g.ids)
    ensures node.Some? <==> key in g.ids
    ensures node.Some? ==> node.value in g.nodes && node.value.key == key
  {
    if key in g.ids then Some(g.nodes[g.ids[key]]) else None
  }

  /** A node's version after its symbol's node in the previous build: kept, advanced or started. */
  function VersionAfter(before: Option<Node>, fingerprint: Fingerprint): nat {
    if before.None? then FIRST_VERSION
    else if before.value.fingerprint == fingerprint then before.value.version
    else before.value.version + 1
  }

  /** What the nodes declare: each symbol's fingerprint. */
  function Declared(nodes: seq<Node>, ids: map<Symbol, NodeId>): map<Symbol, Fingerprint>
    requires Indexed(nodes, ids)
  {
    map k | k in ids :: nodes[ids[k]].fingerprint
  }

  /** A graph built of what is declared, over the build before it. */
  ghost predicate Built(previous: Option<Graph>, declared: map<Symbol, Fingerprint>, g: Graph)
    requires previous.Some? ==> Indexed(previous.value.nodes, previous.value.ids)
  {
    && Sound(g) && g.ids.Keys == declared.Keys
    && forall k :: k in declared ==>
         NodeOf(g, k) == Some(Node(k, VersionAfter(
           if previous.Some? then NodeOf(previous.value, k) else None, declared[k]), declared[k]))
  }

  /** The edges out of one node, in row order. */
  function OutOf(rows: seq<Row>, a: NodeId): seq<Edge> {
    if rows == [] then [] else
    var r := rows[|rows| - 1];
    OutOf(rows[..|rows| - 1], a) + if r.from == a then [Edge(r.kind, r.to)] else []
  }

  /** The edges into one node, in row order, each naming where it comes from. */
  function InTo(rows: seq<Row>, b: NodeId): seq<Edge> {
    if rows == [] then [] else
    var r := rows[|rows| - 1];
    InTo(rows[..|rows| - 1], b) + if r.to == b then [Edge(r.kind, r.from)] else []
  }

  lemma {:induction false} OutOfMembers(rows: seq<Row>, a: NodeId, e: Edge)
    ensures e in OutOf(rows, a) <==> Row(a, e.kind, e.to) in rows
  {
    if rows != [] {
      OutOfMembers(rows[..|rows| - 1], a, e);
      LastApart(rows, Row(a, e.kind, e.to));
    }
  }

  lemma {:induction false} InToMembers(rows: seq<Row>, b: NodeId, e: Edge)
    ensures e in InTo(rows, b) <==> Row(e.to, e.kind, b) in rows
  {
    if rows != [] {
      InToMembers(rows[..|rows| - 1], b, e);
      LastApart(rows, Row(e.to, e.kind, b));
    }
  }

  lemma EdgeOrder()
    ensures StrictOrder(EdgeLess)
  {
  }

  lemma RowOrder()
    ensures StrictOrder(RowLess)
  {
  }

  ghost predicate AllBelow(rows: seq<Row>, x: Row) {
    forall r :: r in rows ==> RowLess(r, x)
  }

  lemma StrictFront(rows: seq<Row>)
    requires Strict(RowLess, rows) && rows != []
    ensures Strict(RowLess, rows[..|rows| - 1])
    ensures AllBelow(rows[..|rows| - 1], rows[|rows| - 1])
  {
    var front := rows[..|rows| - 1];
    forall r | r in front ensures RowLess(r, rows[|rows| - 1]) {
      var i :| 0 <= i < |rows| - 1 && rows[i] == r;
    }
  }

  /** Rows in order give each node's outgoing edges in order. */
  lemma {:induction false} OutOfStrict(rows: seq<Row>, a: NodeId)
    requires Strict(RowLess, rows)
    ensures Strict(EdgeLess, OutOf(rows, a))
  {
    if rows != [] {
      StrictFront(rows);
      OutOfStrict(rows[..|rows| - 1], a);
      var front, r := OutOf(rows[..|rows| - 1], a), rows[|rows| - 1];
      if r.from == a {
        forall e | e in front ensures EdgeLess(e, Edge(r.kind, r.to)) {
          OutOfMembers(rows[..|rows| - 1], a, e);
        }
        EdgeOrder();
        PushStrict(EdgeLess, front, Edge(r.kind, r.to));
      }
    }
  }

  ghost predicate Once(edges: seq<Edge>) {
    forall i, j :: 0 <= i < j < |edges| ==> edges[i] != edges[j]
  }

  lemma {:induction false} InToOnce(rows: seq<Row>, b: NodeId)
    requires Strict(RowLess, rows)
    ensures Once(InTo(rows, b))
  {
    if rows != [] {
      StrictFront(rows);
      InToOnce(rows[..|rows| - 1], b);
      var r := rows[|rows| - 1];
      InToMembers(rows[..|rows| - 1], b, Edge(r.kind, r.from));
    }
  }

  lemma {:induction false} InsertOnce(edges: seq<Edge>, x: Edge)
    requires Once(edges) && x !in edges
    ensures Once(Insert(EdgeLess, edges, x))
  {
    if edges != [] && EdgeLess(x, edges[|edges| - 1]) {
      var rest, last := edges[..|edges| - 1], edges[|edges| - 1];
      InsertOnce(rest, x);
      InsertMembers(EdgeLess, rest, x, last);
      assert last !in rest;
    }
  }

  lemma {:induction false} SortOnce(edges: seq<Edge>)
    requires Once(edges)
    ensures Once(Sort(EdgeLess, edges))
  {
    if edges != [] {
      SortOnce(edges[..|edges| - 1]);
      SortMembers(EdgeLess, edges[..|edges| - 1], edges[|edges| - 1]);
      InsertOnce(Sort(EdgeLess, edges[..|edges| - 1]), edges[|edges| - 1]);
    }
  }

  /** Sorting edges that come once each leaves them strictly ascending. */
  lemma SortedStrict(edges: seq<Edge>)
    requires Once(edges)
    ensures Strict(EdgeLess, Sort(EdgeLess, edges))
  {
    EdgeOrder();
    SortWeak(EdgeLess, edges);
    SortOnce(edges);
    var s := Sort(EdgeLess, edges);
    forall i, j | 0 <= i < j < |s| ensures EdgeLess(s[i], s[j]) {
      assert !EdgeLess(s[j], s[i]);
    }
  }

  /** The builder of one graph. */
  class Builder {
    var nodes: seq<Node>
    var ids: map<Symbol, NodeId>
    var edges: seq<Row>

    ghost predicate Valid()
      reads this
    {
      Indexed(nodes, ids) && InRange(edges, |nodes|)
    }

    constructor ()
      ensures Valid() && nodes == [] && edges == []
    {
      nodes, ids, edges := [], map[], [];
    }

    /** A symbol declared twice keeps its first declaration's node. */
    method AddNode(key: Symbol, fingerprint: Fingerprint) returns (id: NodeId)
      requires Valid()
      modifies this
      ensures Valid() && edges == old(edges)
      ensures key in ids && ids[key] == id
      ensures nodes == if key in old(ids) then old(nodes) else old(nodes) + [Node(key, FIRST_VERSION, fingerprint)]
    {
      if key in ids { return ids[key]; }
      id := |nodes|;
      nodes := nodes + [Node(key, FIRST_VERSION, fingerprint)];
      ids := ids[key := id];
    }

    /** A reference to a symbol without a node leaves no edge. */
    method Link(from: NodeId, kind: Kind, to: Symbol)
      requires Valid() && from < |nodes|
      modifies this
      ensures Valid() && nodes == old(nodes) && ids == old(ids)
      ensures edges == if to in ids then old(edges) + [Row(from, kind, ids[to])] else old(edges)
    {
      if to in ids {
        edges := edges + [Row(from, kind, ids[to])];
      }
    }

    /** Carries versions forward from the previous build. */
    method CarryVersions(previous: Option<Graph>)
      requires Valid() && (previous.Some? ==> Indexed(previous.value.nodes, previous.value.ids))
      requires forall i :: 0 <= i < |nodes| ==> nodes[i].version == FIRST_VERSION
      modifies this
      ensures Valid() && ids == old(ids) && edges == old(edges) && |nodes| == |old(nodes)|
      ensures forall i :: 0 <= i < |nodes| ==>
                nodes[i] == old(nodes)[i].(version := VersionAfter(
                  if previous.Some? then NodeOf(previous.value, old(nodes)[i].key) else None,
                  old(nodes)[i].fingerprint))
    {
      if previous.Some? {
        for i := 0 to |nodes|
          invariant |nodes| == |old(nodes)| && ids == old(ids) && edges == old(edges)
          invariant forall j :: i <= j < |nodes| ==> nodes[j] == old(nodes)[j]
          invariant forall j :: 0 <= j < i ==>
                      nodes[j] == old(nodes)[j].(version := VersionAfter(
                        NodeOf(previous.value, old(nodes)[j].key), old(nodes)[j].fingerprint))
        {
          var before := NodeOf(previous.value, nodes[i].key);
          if before.Some? {
            nodes := nodes[i := nodes[i].(version := if before.value.fingerprint == nodes[i].fingerprint
                                                     then before.value.version else before.value.version + 1)];
          }
        }
      }
    }

    /** Sorts and drops duplicate edges, and fills both directions. */
    method Finish(previous: Option<Graph>) returns (graph: Graph)
      requires Valid() && (previous.Some? ==> Indexed(previous.value.nodes, previous.value.ids))
      requires forall i :: 0 <= i < |nodes| ==> nodes[i].version == FIRST_VERSION
      modifies this
      ensures Sound(graph) && graph.ids == old(ids) && |graph.nodes| == |old(nodes)|
      ensures forall a, b, k {:trigger Edge(k, b) in graph.outgoing[a]} ::
                0 <= a < |graph.nodes| ==> (Edge(k, b) in graph.outgoing[a] <==> Row(a, k, b) in old(edges))
      ensures forall i :: 0 <= i < |graph.nodes| ==>
                graph.nodes[i] == old(nodes)[i].(version := VersionAfter(
                  if previous.Some? then NodeOf(previous.value, old(nodes)[i].key) else None,
                  old(nodes)[i].fingerprint))
      ensures Indexed(old(nodes), old(ids)) && Built(previous, Declared(old(nodes), old(ids)), graph)
    {
      CarryVersions(previous);
      RowOrder();
      CanonicalHolds(RowLess, edges);
      ghost var linked := edges;
      edges := Canonical(RowLess, edges);
      assert InRange(edges, |nodes|);
      var outgoing, incoming := Fill(|nodes|, edges);
      graph := Graph(nodes, ids, outgoing, incoming);
      FilledValid(graph, edges);
      forall a, b, k | 0 <= a < |graph.nodes| ensures Edge(k, b) in graph.outgoing[a] <==> Row(a, k, b) in linked {
        OutOfMembers(edges, a, Edge(k, b));
      }
    }
  }

  /** Pushes every row's edge on both its nodes, and sorts what comes in. */
  method Fill(n: nat, rows: seq<Row>) returns (outgoing: seq<seq<Edge>>, incoming: seq<seq<Edge>>)
    requires InRange(rows, n)
    ensures |outgoing| == |incoming| == n
    ensures forall a :: 0 <= a < n ==> outgoing[a] == OutOf(rows, a)
    ensures forall b :: 0 <= b < n ==> incoming[b] == Sort(EdgeLess, InTo(rows, b))
  {
    outgoing := seq(n, _ => []);
    incoming := seq(n, _ => []);
    for i := 0 to |rows|
      invariant |outgoing| == |incoming| == n
      invariant forall a :: 0 <= a < n ==> outgoing[a] == OutOf(rows[..i], a)
      invariant forall b :: 0 <= b < n ==> incoming[b] == InTo(rows[..i], b)
    {
      var r := rows[i];
      assert r in rows;
      assert rows[..i + 1][..i] == rows[..i];
      outgoing := outgoing[r.from := outgoing[r.from] + [Edge(r.kind, r.to)]];
      incoming := incoming[r.to := incoming[r.to] + [Edge(r.kind, r.from)]];
    }
    assert rows[..|rows|] == rows;
    for b := 0 to n
      invariant |incoming| == n
      invariant forall c :: 0 <= c < b ==> incoming[c] == Sort(EdgeLess, InTo(rows, c))
      invariant forall c :: b <= c < n ==> incoming[c] == InTo(rows, c)
    {
      incoming := incoming[b := Sort(EdgeLess, incoming[b])];
    }
  }

  lemma FilledValid(g: Graph, rows: seq<Row>)
    requires Indexed(g.nodes, g.ids) && InRange(rows, |g.nodes|) && Strict(RowLess, rows)
    requires |g.outgoing| == |g.incoming| == |g.nodes|
    requires forall a :: 0 <= a < |g.nodes| ==> g.outgoing[a] == OutOf(rows, a)
    requires forall b :: 0 <= b < |g.nodes| ==> g.incoming[b] == Sort(EdgeLess, InTo(rows, b))
    ensures Sound(g)
  {
    hide Indexed, Strict, OutOf, InTo, Sort;
    forall a | 0 <= a < |g.nodes| ensures Targets(g.outgoing[a], |g.nodes|) && Strict(EdgeLess, g.outgoing[a]) {
      OutOfStrict(rows, a);
      forall e | e in g.outgoing[a] ensures e.to < |g.nodes| { OutOfMembers(rows, a, e); }
    }
    forall b | 0 <= b < |g.nodes| ensures Targets(g.incoming[b], |g.nodes|) && Strict(EdgeLess, g.incoming[b]) {
      InToOnce(rows, b);
      SortedStrict(InTo(rows, b));
      forall e | e in g.incoming[b] ensures e.to < |g.nodes| {
        SortMembers(EdgeLess, InTo(rows, b), e);
        InToMembers(rows, b, e);
      }
    }
    forall a, b, k | 0 <= a < |g.nodes| && 0 <= b < |g.nodes|
      ensures Edge(k, b) in g.outgoing[a] <==> Edge(k, a) in g.incoming[b]
    {
      OutOfMembers(rows, a, Edge(k, b));
      SortMembers(EdgeLess, InTo(rows, b), Edge(k, a));
      InToMembers(rows, b, Edge(k, a));
    }
  }

  /** Two builds whose edges are the same, in any order and however often each, have the same adjacency. */
  lemma AdjacencyBySet(g: Graph, h: Graph, rows: seq<Row>, others: seq<Row>)
    requires Sound(g) && Sound(h) && |g.nodes| == |h.nodes| && Alike(rows, others)
    requires forall a, b, k {:trigger Edge(k, b) in g.outgoing[a]} ::
               0 <= a < |g.nodes| ==> (Edge(k, b) in g.outgoing[a] <==> Row(a, k, b) in rows)
    requires forall a, b, k {:trigger Edge(k, b) in h.outgoing[a]} ::
               0 <= a < |h.nodes| ==> (Edge(k, b) in h.outgoing[a] <==> Row(a, k, b) in others)
    ensures g.outgoing == h.outgoing && g.incoming == h.incoming
  {
    EdgeOrder();
    hide Indexed, Strict, StrictOrder, EdgeLess;
    forall a | 0 <= a < |g.nodes| ensures g.outgoing[a] == h.outgoing[a] {
      forall e ensures e in g.outgoing[a] <==> e in h.outgoing[a] {
        assert Edge(e.kind, e.to) == e;
      }
      StrictOnce(EdgeLess, g.outgoing[a], h.outgoing[a]);
    }
    forall b | 0 <= b < |g.nodes| ensures g.incoming[b] == h.incoming[b] {
      forall e ensures e in g.incoming[b] <==> e in h.incoming[b] {
        assert Edge(e.kind, e.to) == e;
        if e.to < |g.nodes| { assert Edge(e.kind, b) in g.outgoing[e.to] <==> Edge(e.kind, b) in h.outgoing[e.to]; }
      }
      StrictOnce(EdgeLess, g.incoming[b], h.incoming[b]);
    }
  }

  /** A symbol's node after a line of builds, each naming the fingerprint it had, or that it was absent. */
  function NodeAfter(key: Symbol, builds: seq<Option<Fingerprint>>): Option<Node> {
    if builds == [] || builds[|builds| - 1].None? then None else
    var fingerprint := builds[|builds| - 1].value;
    Some(Node(key, VersionAfter(NodeAfter(key, builds[..|builds| - 1]), fingerprint), fingerprint))
  }

  /** What each build of a line of them declared one symbol's fingerprint to be. */
  function History(declared: seq<map<Symbol, Fingerprint>>, key: Symbol): (builds: seq<Option<Fingerprint>>)
    ensures |builds| == |declared|
    ensures forall i :: 0 <= i < |declared| ==> builds[i] == Get(declared[i], key)
  {
    seq(|declared|, i requires 0 <= i < |declared| => Get(declared[i], key))
  }

  /** Graphs built one over the other, the first over none. */
  ghost predicate Builds(graphs: seq<Graph>, declared: seq<map<Symbol, Fingerprint>>) {
    && |graphs| == |declared|
    && (forall i :: 0 <= i < |graphs| ==> Sound(graphs[i]))
    && (graphs != [] ==> Built(None, declared[0], graphs[0]))
    && forall i, j :: 0 <= i && j == i + 1 < |graphs| ==> Built(Some(graphs[i]), declared[j], graphs[j])
  }

  /** In the last of any line of builds a symbol's node is what its history makes it. */
  lemma {:induction false} NodeOfBuilds(graphs: seq<Graph>, declared: seq<map<Symbol, Fingerprint>>, key: Symbol)
    requires graphs != [] && Builds(graphs, declared)
    ensures NodeOf(graphs[|graphs| - 1], key) == NodeAfter(key, History(declared, key))
  {
    var n := |graphs| - 1;
    assert History(declared, key)[..n] == History(declared[..n], key);
    if n > 0 {
      NodeOfBuilds(graphs[..n], declared[..n], key);
      assert Built(Some(graphs[n - 1]), declared[n], graphs[n]);
    }
    hide Sound;
  }

  ghost predicate Present(builds: seq<Option<Fingerprint>>, from: nat) {
    forall m :: from <= m < |builds| ==> builds[m].Some?
  }

  ghost predicate Constant(builds: seq<Option<Fingerprint>>, from: nat) {
    forall m :: from <= m < |builds| ==> builds[m] == builds[from]
  }

  /** While a symbol stays present its version never falls, and stays the same exactly while its content does. */
  lemma {:induction false} VersionTellsChange(key: Symbol, builds: seq<Option<Fingerprint>>, from: nat)
    requires from < |builds| && Present(builds, from)
    ensures NodeAfter(key, builds[..from + 1]).Some? && NodeAfter(key, builds).Some?
    ensures NodeAfter(key, builds[..from + 1]).value.version <= NodeAfter(key, builds).value.version
    ensures NodeAfter(key, builds[..from + 1]).value.version == NodeAfter(key, builds).value.version <==>
            Constant(builds, from)
  {
    var n := |builds| - 1;
    if from == n {
      assert builds[..n + 1] == builds;
    } else {
      var before := builds[..n];
      VersionTellsChange(key, before, from);
      assert before[..from + 1] == builds[..from + 1];
      assert Constant(builds, from) <==> Constant(before, from) && builds[n] == before[n - 1] by {
        assert before[n - 1] == builds[n - 1];
        forall m | from <= m < n ensures before[m] == builds[m] {}
      }
    }
  }

  /** How often a symbol's content changed between neighbouring builds after `from`. */
  function Changes(builds: seq<Option<Fingerprint>>, from: nat): nat {
    var n := |builds| - 1;
    if n <= from then 0
    else Changes(builds[..n], from) + if builds[n] != builds[n - 1] then 1 else 0
  }

  /**
   A version counts the changes since the symbol was last declared anew, whatever came before its
   absence: across an absence it starts over.
   */
  lemma {:induction false} VersionCounts(key: Symbol, builds: seq<Option<Fingerprint>>, from: nat)
    requires from < |builds| && Present(builds, from) && (from == 0 || builds[from - 1].None?)
    ensures NodeAfter(key, builds).Some?
    ensures NodeAfter(key, builds).value.version == FIRST_VERSION + Changes(builds, from)
    ensures NodeAfter(key, builds).value.fingerprint == builds[|builds| - 1].value
  {
    var n := |builds| - 1;
    if from < n {
      assert builds[..n][n - 1] == builds[n - 1];
      VersionCounts(key, builds[..n], from);
    }
  }
}
