/**
 Depth-bounded breadth-first traversal of the graph: what a symbol impacts, and an operation's
 neighborhood.
 */
module Traverse {
  import opened Common
  import opened SortDedup
  import opened SymbolGraph

  // The width of a query's depth and distances.
  newtype u8 = x: int | 0 <= x < 256

  datatype Direction = Incoming | Both

  function TargetsOf(edges: seq<Edge>): (ids: seq<NodeId>)
    ensures |ids| == |edges|
    ensures forall i :: 0 <= i < |edges| ==> ids[i] == edges[i].to
  {
    seq(|edges|, i requires 0 <= i < |edges| => edges[i].to)
  }

  /** The nodes one step away: along incoming edges, or those and the outgoing ones. */
  function Neighbors(g: Graph, node: NodeId, direction: Direction): seq<NodeId>
    requires Sound(g) && node < |g.nodes|
  {
    match direction
    case Incoming => TargetsOf(g.incoming[node])
    case Both => TargetsOf(g.incoming[node]) + TargetsOf(g.outgoing[node])
  }

  predicate Step(g: Graph, direction: Direction, a: NodeId, b: NodeId)
    requires Sound(g)
  {
    a < |g.nodes| && b in Neighbors(g, a, direction)
  }

  lemma NeighborsInRange(g: Graph, direction: Direction, a: NodeId, b: NodeId)
    requires Sound(g) && Step(g, direction, a, b)
    ensures b < |g.nodes|
  {
    var ids := Neighbors(g, a, direction);
    var i :| 0 <= i < |ids| && ids[i] == b;
    if i < |g.incoming[a]| {
      assert g.incoming[a][i] in g.incoming[a];
    } else {
      assert g.outgoing[a][i - |g.incoming[a]|] in g.outgoing[a];
    }
  }

  ghost predicate Route(g: Graph, direction: Direction, p: seq<NodeId>)
    requires Sound(g)
  {
    p != [] && forall i :: 0 <= i < |p| - 1 ==> Hop(g, direction, p, i)
  }

  predicate Hop(g: Graph, direction: Direction, p: seq<NodeId>, i: nat)
    requires Sound(g) && i < |p| - 1
  {
    Step(g, direction, p[i], p[i + 1])
  }

  /** Some route of `n` steps leads from `a` to `b`. */
  ghost predicate Reaches(g: Graph, direction: Direction, a: NodeId, b: NodeId, n: nat)
    requires Sound(g)
  {
    exists p :: Leads(g, direction, p, a, b, n)
  }

  ghost predicate Leads(g: Graph, direction: Direction, p: seq<NodeId>, a: NodeId, b: NodeId, n: nat)
    requires Sound(g)
  {
    |p| == n + 1 && Route(g, direction, p) && p[0] == a && p[n] == b
  }

  /** `n` is the least number of steps from `a` to `b`. */
  ghost predicate Apart(g: Graph, direction: Direction, a: NodeId, b: NodeId, n: nat)
    requires Sound(g)
  {
    Reaches(g, direction, a, b, n) && forall m :: 0 <= m < n ==> !Reaches(g, direction, a, b, m)
  }

  lemma ReachesStart(g: Graph, direction: Direction, a: NodeId)
    requires Sound(g)
    ensures Reaches(g, direction, a, a, 0)
    ensures forall b :: Reaches(g, direction, a, b, 0) ==> b == a
  {
    assert Leads(g, direction, [a], a, a, 0);
  }

  lemma ReachesMore(g: Graph, direction: Direction, a: NodeId, m: NodeId, b: NodeId, n: nat)
    requires Sound(g) && Reaches(g, direction, a, m, n) && Step(g, direction, m, b)
    ensures Reaches(g, direction, a, b, n + 1)
  {
    var p :| Leads(g, direction, p, a, m, n);
    var q := p + [b];
    forall i | 0 <= i < |q| - 1 ensures Hop(g, direction, q, i) {
      assert i < |p| - 1 ==> Hop(g, direction, p, i);
    }
    assert Leads(g, direction, q, a, b, n + 1);
  }

  lemma ReachesBack(g: Graph, direction: Direction, a: NodeId, b: NodeId, n: nat) returns (m: NodeId)
    requires Sound(g) && 0 < n && Reaches(g, direction, a, b, n)
    ensures Reaches(g, direction, a, m, n - 1) && Step(g, direction, m, b)
  {
    var p :| Leads(g, direction, p, a, b, n);
    m := p[n - 1];
    var q := p[..n];
    forall i | 0 <= i < |q| - 1 ensures Hop(g, direction, q, i) {
      assert Hop(g, direction, p, i);
    }
    assert Leads(g, direction, q, a, m, n - 1);
    assert Hop(g, direction, p, n - 1);
  }

  /** What the traversal keeps of its distances: each is exact, and within the depth. */
  ghost predicate Exact(g: Graph, direction: Direction, start: NodeId, distances: map<NodeId, u8>, depth: u8)
    requires Sound(g)
  {
    && start in distances && distances[start] == 0
    && forall x :: x in distances ==>
         x < |g.nodes| && distances[x] <= depth && Apart(g, direction, start, x, distances[x] as nat)
  }

  predicate Expanded(g: Graph, direction: Direction, distances: map<NodeId, u8>, x: NodeId)
    requires Sound(g)
  {
    x < |g.nodes| && forall y :: y in Neighbors(g, x, direction) ==> y in distances
  }

  /** Whatever is reached in `n` steps has a distance once everything nearer has been expanded. */
  lemma {:induction false} NearerKnown(g: Graph, direction: Direction, start: NodeId, distances: map<NodeId, u8>,
      depth: u8, n: nat, b: NodeId)
    requires Sound(g) && Exact(g, direction, start, distances, depth) && Reaches(g, direction, start, b, n)
    requires forall x :: x in distances && distances[x] as nat < n ==> Expanded(g, direction, distances, x)
    ensures b in distances && distances[b] as nat <= n
  {
    hide Reaches, Sound, Step;
    if n == 0 {
      ReachesStart(g, direction, start);
    } else {
      var m := ReachesBack(g, direction, start, b, n);
      NearerKnown(g, direction, start, distances, depth, n - 1, m);
      StepKnown(g, direction, distances, m, b);
      ReachesMore(g, direction, start, m, b, n - 1);
      assert Apart(g, direction, start, b, distances[b] as nat);
    }
  }

  lemma StepKnown(g: Graph, direction: Direction, distances: map<NodeId, u8>, m: NodeId, b: NodeId)
    requires Sound(g) && Step(g, direction, m, b) && Expanded(g, direction, distances, m)
    ensures b in distances
  {
  }

  /** The first way into an unknown node is a shortest one. */
  lemma FreshApart(g: Graph, direction: Direction, start: NodeId, distances: map<NodeId, u8>, depth: u8, node: NodeId,
      b: NodeId)
    requires Sound(g) && Exact(g, direction, start, distances, depth)
    requires node in distances && Step(g, direction, node, b) && b !in distances
    requires forall x :: x in distances && distances[x] < distances[node] ==> Expanded(g, direction, distances, x)
    ensures Apart(g, direction, start, b, distances[node] as nat + 1)
  {
    hide Reaches, Sound, Step, Expanded;
    var d := distances[node] as nat;
    assert Apart(g, direction, start, node, d);
    ReachesMore(g, direction, start, node, b, d);
    forall m | 0 <= m < d + 1 ensures !Reaches(g, direction, start, b, m) {
      if Reaches(g, direction, start, b, m) {
        NearerKnown(g, direction, start, distances, depth, m, b);
      }
    }
  }

  ghost predicate Queued(distances: map<NodeId, u8>, frontier: seq<NodeId>, low: u8) {
    && (forall i :: 0 <= i < |frontier| ==> frontier[i] in distances)
    && (forall i :: 0 <= i < |frontier| ==>
         low <= distances[frontier[i]] && distances[frontier[i]] as nat <= low as nat + 1)
    && (forall i, j :: 0 <= i < j < |frontier| ==> distances[frontier[i]] <= distances[frontier[j]])
  }

  ghost function Unknown(g: Graph, distances: map<NodeId, u8>): set<NodeId> {
    set x: NodeId | 0 <= x < |g.nodes| && x !in distances
  }

  /** Gives every neighbor without a distance the next one, and queues it. */
  method Expand(g: Graph, direction: Direction, start: NodeId, depth: u8, node: NodeId,
                distances0: map<NodeId, u8>, frontier0: seq<NodeId>)
    returns (distances: map<NodeId, u8>, frontier: seq<NodeId>)
    requires Sound(g) && Exact(g, direction, start, distances0, depth)
    requires node in distances0 && distances0[node] < depth && Queued(distances0, frontier0, distances0[node])
    requires forall x :: x in distances0 && x != node && x !in frontier0 && distances0[x] < depth ==>
               Expanded(g, direction, distances0, x)
    ensures Exact(g, direction, start, distances, depth)
    ensures node in distances && distances[node] == distances0[node] && Queued(distances, frontier, distances[node])
    ensures forall x :: x in distances && x !in frontier && distances[x] < depth ==>
              Expanded(g, direction, distances, x)
    ensures Unknown(g, distances) < Unknown(g, distances0) || (distances == distances0 && frontier == frontier0)
  {
    hide Sound, Apart, Reaches, Neighbors;
    distances, frontier := distances0, frontier0;
    var next := Neighbors(g, node, direction);
    for i := 0 to |next|
      invariant Exact(g, direction, start, distances, depth)
      invariant node in distances && distances[node] == distances0[node] && Queued(distances, frontier, distances[node])
      invariant forall x :: x in distances && x != node && x !in frontier && distances[x] < depth ==>
                  Expanded(g, direction, distances, x)
      invariant forall j :: 0 <= j < i ==> next[j] in distances
      invariant Unknown(g, distances) < Unknown(g, distances0) || (distances == distances0 && frontier == frontier0)
    {
      var neighbor := next[i];
      if neighbor !in distances {
        assert Step(g, direction, node, neighbor);
        NeighborsInRange(g, direction, node, neighbor);
        NearDone(g, direction, distances, frontier, depth, node);
        FreshApart(g, direction, start, distances, depth, node, neighbor);
        Shrinks(g, distances, neighbor, distances[node] + 1);
        distances := distances[neighbor := distances[node] + 1];
        frontier := frontier + [neighbor];
      }
    }
    forall y | y in next ensures y in distances {
      var j :| 0 <= j < |next| && next[j] == y;
    }
  }

  lemma Shrinks(g: Graph, distances: map<NodeId, u8>, neighbor: NodeId, d: u8)
    requires neighbor < |g.nodes| && neighbor !in distances
    ensures Unknown(g, distances[neighbor := d]) < Unknown(g, distances)
  {
    assert neighbor in Unknown(g, distances) && neighbor !in Unknown(g, distances[neighbor := d]);
  }

  lemma NearDone(g: Graph, direction: Direction, distances: map<NodeId, u8>, frontier: seq<NodeId>, depth: u8,
      node: NodeId)
    requires Sound(g) && node in distances && distances[node] <= depth && Queued(distances, frontier, distances[node])
    requires forall x :: x in distances && x != node && x !in frontier && distances[x] < depth ==>
               Expanded(g, direction, distances, x)
    ensures forall x :: x in distances && distances[x] < distances[node] ==> Expanded(g, direction, distances, x)
  {
    hide Expanded, Sound;
    forall x | x in distances && distances[x] < distances[node] ensures Expanded(g, direction, distances, x) {
      assert x !in frontier;
    }
  }

  /** The distances of everything within `depth` steps of a node, and of nothing else. */
  method Distances(g: Graph, start: NodeId, depth: u8, direction: Direction) returns (distances: map<NodeId, u8>)
    requires Sound(g) && start < |g.nodes|
    ensures forall x :: x in distances ==> x < |g.nodes|
    ensures forall x: NodeId, d: nat {:trigger Apart(g, direction, start, x, d)} ::
              d <= depth as nat ==> (Apart(g, direction, start, x, d) <==> x in distances && distances[x] as nat == d)
    ensures forall x :: x in distances ==> distances[x] <= depth
  {
    hide Sound;
    StartExact(g, direction, start, depth);
    distances := map[start := 0];
    var frontier := [start];
    var low: u8 := 0;
    while frontier != []
      invariant Exact(g, direction, start, distances, depth) && Queued(distances, frontier, low)
      invariant forall x :: x in distances && x !in frontier && distances[x] < depth ==>
                  Expanded(g, direction, distances, x)
      decreases Unknown(g, distances), |frontier|
    {
      hide Exact, Expanded, Unknown, Apart;
      var node := frontier[0];
      var rest := frontier[1..];
      assert frontier == [node] + rest;
      assert Queued(distances, rest, distances[node]);
      low := distances[node];
      frontier := rest;
      if distances[node] < depth {
        distances, frontier := Expand(g, direction, start, depth, node, distances, frontier);
      }
    }
    forall x: NodeId, d: nat | d <= depth as nat
      ensures Apart(g, direction, start, x, d) <==> x in distances && distances[x] as nat == d
    {
      WithinKnown(g, direction, start, distances, depth, x, d);
    }
  }

  lemma StartExact(g: Graph, direction: Direction, start: NodeId, depth: u8)
    requires Sound(g) && start < |g.nodes|
    ensures Exact(g, direction, start, map[start := 0], depth)
  {
    hide Reaches;
    ReachesStart(g, direction, start);
  }

  lemma WithinKnown(g: Graph, direction: Direction, start: NodeId, distances: map<NodeId, u8>, depth: u8, x: NodeId,
      d: nat)
    requires Sound(g) && Exact(g, direction, start, distances, depth) && d <= depth as nat
    requires forall y :: y in distances && distances[y] < depth ==> Expanded(g, direction, distances, y)
    ensures Apart(g, direction, start, x, d) <==> x in distances && distances[x] as nat == d
  {
    hide Reaches, Expanded, Sound;
    if Apart(g, direction, start, x, d) {
      NearerKnown(g, direction, start, distances, depth, d, x);
      assert Apart(g, direction, start, x, distances[x] as nat);
    }
  }

  /** Every symbol reached, other than the start, with its distance; none at all for a symbol without a node. */
  method Traverse(g: Graph, start: Symbol, depth: u8, direction: Direction) returns (rows: seq<(Symbol, u8)>)
    requires Sound(g)
    ensures start !in g.ids ==> rows == []
    ensures start in g.ids ==> Reached(g, start, depth, direction, rows)
  {
    if start !in g.ids { return []; }
    var id := g.ids[start];
    var distances := Distances(g, id, depth, direction);
    rows := [];
    var left := distances.Keys - {id};
    while left != {}
      invariant left <= distances.Keys - {id}
      invariant forall r :: r in rows <==>
                  exists x :: x in distances.Keys - {id} - left && r == (g.nodes[x].key, distances[x])
      decreases left
    {
      hide Sound, Apart;
      var x :| x in left;
      ghost var was, before := rows, left;
      rows := rows + [(g.nodes[x].key, distances[x])];
      left := left - {x};
      forall r
        ensures r in rows <==> exists y :: y in distances.Keys - {id} - left && r == (g.nodes[y].key, distances[y])
      {
        assert r in rows <==> r in was || r == (g.nodes[x].key, distances[x]);
        assert forall y :: y in distances.Keys - {id} - left <==> y in distances.Keys - {id} - before || y == x;
      }
    }
    RowsReached(g, start, depth, direction, distances, rows);
  }

  /** The rows are the other symbols within the depth, each with the least number of steps to it. */
  ghost predicate Reached(g: Graph, start: Symbol, depth: u8, direction: Direction, rows: seq<(Symbol, u8)>)
    requires Sound(g) && start in g.ids
  {
    forall key: Symbol, d: u8 {:trigger (key, d) in rows} ::
      (key, d) in rows <==>
      key != start && key in g.ids && d <= depth && Apart(g, direction, g.ids[start], g.ids[key], d as nat)
  }

  lemma RowsReached(g: Graph, start: Symbol, depth: u8, direction: Direction, distances: map<NodeId, u8>,
      rows: seq<(Symbol, u8)>)
    requires Sound(g) && start in g.ids
    requires forall x :: x in distances ==> x < |g.nodes| && distances[x] <= depth
    requires forall x: NodeId, d: nat {:trigger Apart(g, direction, g.ids[start], x, d)} ::
               d <= depth as nat ==>
                 (Apart(g, direction, g.ids[start], x, d) <==> x in distances && distances[x] as nat == d)
    requires forall r :: r in rows <==>
               exists x :: x in distances.Keys - {g.ids[start]} && r == (g.nodes[x].key, distances[x])
    ensures Reached(g, start, depth, direction, rows)
  {
    hide Apart;
    forall key: Symbol, d: u8
      ensures (key, d) in rows <==>
              key != start && key in g.ids && d <= depth && Apart(g, direction, g.ids[start], g.ids[key], d as nat)
    {
      if (key, d) in rows {
        var x :| x in distances.Keys - {g.ids[start]} && (key, d) == (g.nodes[x].key, distances[x]);
        assert g.ids[key] == x;
      }
      if key != start && key in g.ids && d <= depth && Apart(g, direction, g.ids[start], g.ids[key], d as nat) {
        var x := g.ids[key];
        assert x in distances.Keys - {g.ids[start]} && g.nodes[x].key == key && distances[x] == d;
      }
    }
  }

  /** `a` declares an edge to `b`. */
  ghost predicate Declares(g: Graph, a: NodeId, b: NodeId)
    requires Sound(g)
  {
    a < |g.nodes| && exists k :: Edge(k, b) in g.outgoing[a]
  }

  /** Some chain of `n` declared edges leads from `a` to `b`. */
  ghost predicate Chained(g: Graph, a: NodeId, b: NodeId, n: nat)
    requires Sound(g)
  {
    exists p :: Chain(g, p, a, b, n)
  }

  ghost predicate Chain(g: Graph, p: seq<NodeId>, a: NodeId, b: NodeId, n: nat)
    requires Sound(g)
  {
    |p| == n + 1 && p[0] == a && p[n] == b && forall i {:trigger Linked(g, p, i)} :: 0 <= i < n ==> Linked(g, p, i)
  }

  ghost predicate Linked(g: Graph, p: seq<NodeId>, i: nat)
    requires Sound(g) && i + 1 < |p|
  {
    Declares(g, p[i], p[i + 1])
  }

  lemma StepIsDeclared(g: Graph, a: NodeId, b: NodeId)
    requires Sound(g) && a < |g.nodes|
    ensures Step(g, Incoming, a, b) <==> Declares(g, b, a)
  {
    hide Indexed, Strict;
    if Step(g, Incoming, a, b) {
      var i :| 0 <= i < |g.incoming[a]| && g.incoming[a][i].to == b;
      var e := g.incoming[a][i];
      assert e in g.incoming[a] && e == Edge(e.kind, b);
      assert Edge(e.kind, a) in g.outgoing[b];
    }
    if Declares(g, b, a) {
      var k :| Edge(k, a) in g.outgoing[b];
      assert Edge(k, b) in g.incoming[a];
      var i :| 0 <= i < |g.incoming[a]| && g.incoming[a][i] == Edge(k, b);
      assert TargetsOf(g.incoming[a])[i] == b;
    }
  }

  lemma DeclaredNodes(g: Graph, a: NodeId, b: NodeId)
    requires Sound(g) && Declares(g, a, b)
    ensures b < |g.nodes|
  {
    var k :| Edge(k, b) in g.outgoing[a];
    assert Targets(g.outgoing[a], |g.nodes|);
  }

  /** Steps back along incoming edges are chains of declared edges the other way. */
  lemma {:induction false} ReachesIsChained(g: Graph, a: NodeId, b: NodeId, n: nat)
    requires Sound(g) && a < |g.nodes|
    ensures Reaches(g, Incoming, a, b, n) <==> Chained(g, b, a, n)
  {
    hide Sound, Step, Declares;
    if Reaches(g, Incoming, a, b, n) {
      var p :| Leads(g, Incoming, p, a, b, n);
      var q := seq(n + 1, i requires 0 <= i <= n => p[n - i]);
      forall i | 0 <= i < n ensures Linked(g, q, i) {
        assert Hop(g, Incoming, p, n - 1 - i);
        HopIn(g, p, n - 1 - i);
        StepIsDeclared(g, p[n - 1 - i], p[n - i]);
      }
      assert Chain(g, q, b, a, n);
    }
    if Chained(g, b, a, n) {
      var p :| Chain(g, p, b, a, n);
      var q := seq(n + 1, i requires 0 <= i <= n => p[n - i]);
      forall i | 0 <= i < n ensures Hop(g, Incoming, q, i) {
        assert Linked(g, p, n - 1 - i);
        DeclaredNodes(g, p[n - 1 - i], p[n - i]);
        StepIsDeclared(g, p[n - i], p[n - 1 - i]);
      }
      assert Leads(g, Incoming, q, a, b, n);
    }
  }

  lemma HopIn(g: Graph, p: seq<NodeId>, i: nat)
    requires Sound(g) && i < |p| - 1 && Hop(g, Incoming, p, i)
    ensures p[i] < |g.nodes|
  {
  }

  /**
   What `ImpactedBy` answers: exactly the other symbols from which the start is reached along at most
   `depth` declared edges, each with the least number of them.
   */
  lemma ImpactedBy(g: Graph, start: Symbol, depth: u8, rows: seq<(Symbol, u8)>, key: Symbol, d: u8)
    requires Sound(g) && start in g.ids && Reached(g, start, depth, Incoming, rows)
    ensures (key, d) in rows <==>
            key != start && key in g.ids && d <= depth &&
            Chained(g, g.ids[key], g.ids[start], d as nat) &&
            forall m: nat :: m < d as nat ==> !Chained(g, g.ids[key], g.ids[start], m)
  {
    if key in g.ids {
      var a, b := g.ids[start], g.ids[key];
      forall m: nat ensures Reaches(g, Incoming, a, b, m) <==> Chained(g, b, a, m) {
        ReachesIsChained(g, a, b, m);
      }
      hide Sound, Reaches, Chained;
    }
  }
}
