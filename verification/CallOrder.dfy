/**
 Call order: every operation and transition numbered, callees first.

 The source places the components of the call graph one at a time, always the ready one that holds
 the least key, and numbers the members of each in key order. `Placement` says what such an order is
 without naming components by index, so that it can be shown to depend on the graph alone.
 */
module CallOrder {
  import opened CallGraph
  import opened Tarjan

  /** A class of mutual reachability. */
  ghost predicate Class(g: Graph, c: set<Key>) {
    && c != {} && c <= g.Keys
    && forall x, y {:trigger Mutual(g, x, y)} :: x in c ==> (y in c <==> Mutual(g, x, y))
  }

  /** A class not placed yet, all of whose callees outside it are. */
  ghost predicate Ready(g: Graph, placed: set<Key>, c: set<Key>) {
    && Class(g, c) && c !! placed
    && forall x, y {:trigger Edge(g, x, y)} :: x in c && Edge(g, x, y) ==> y in placed + c
  }

  /** `c` is the ready class holding the least key. */
  ghost predicate Next(g: Graph, placed: set<Key>, c: set<Key>) {
    && Ready(g, placed, c)
    && forall d :: Ready(g, placed, d) ==> Least(c) <= Least(d)
  }

  ghost predicate Placement(g: Graph, order: seq<set<Key>>) {
    forall k :: 0 <= k < |order| ==> Next(g, Members(order[..k]), order[k])
  }

  /** The members of the classes, in order, each class in key order. */
  function Listing(order: seq<set<Key>>): seq<Key> {
    if order == [] then [] else
    Listing(order[..|order| - 1]) + Ascending(order[|order| - 1])
  }

  lemma ListingPush(order: seq<set<Key>>, c: set<Key>)
    ensures Listing(order + [c]) == Listing(order) + Ascending(c)
  {
    assert (order + [c])[..|order|] == order;
  }

  lemma ListingMembers(order: seq<set<Key>>, x: Key)
    ensures x in Listing(order) <==> x in Members(order)
  {
    if order != [] {
      var n := |order| - 1;
      ListingMembers(order[..n], x);
      assert order == order[..n] + [order[n]];
      MembersPush(order[..n], order[n]);
    }
  }

  lemma PlacementPush(g: Graph, order: seq<set<Key>>, c: set<Key>)
    requires Placement(g, order) && Next(g, Members(order), c)
    ensures Placement(g, order + [c])
  {
    var more := order + [c];
    forall k | 0 <= k < |more| ensures Next(g, Members(more[..k]), more[k]) {
      assert more[..k] == order[..k];
      if k == |order| { assert order[..k] == order; }
    }
  }

  /** Classes that share a key are equal. */
  lemma ClassesMeet(g: Graph, c: set<Key>, d: set<Key>, x: Key)
    requires Class(g, c) && Class(g, d) && x in c && x in d
    ensures c == d
  {
    hide Mutual;
    forall y ensures y in c <==> y in d {
      assert y in c <==> Mutual(g, x, y);
    }
  }

  /** What is placed next is settled by the graph and what is placed. */
  lemma NextUnique(g: Graph, placed: set<Key>, c: set<Key>, d: set<Key>)
    requires Next(g, placed, c) && Next(g, placed, d)
    ensures c == d
  {
    ClassesMeet(g, c, d, Least(c));
  }

  /** The order is settled by the graph alone. */
  lemma {:induction false} PlacementUnique(g: Graph, a: seq<set<Key>>, b: seq<set<Key>>, k: nat)
    requires Placement(g, a) && Placement(g, b) && k <= |a| && k <= |b|
    ensures a[..k] == b[..k]
  {
    hide Next, Members;
    if k > 0 {
      PlacementUnique(g, a, b, k - 1);
      assert Next(g, Members(a[..k - 1]), a[k - 1]) && Next(g, Members(b[..k - 1]), b[k - 1]);
      NextUnique(g, Members(a[..k - 1]), a[k - 1], b[k - 1]);
      assert a[..k] == a[..k - 1] + [a[k - 1]] && b[..k] == b[..k - 1] + [b[k - 1]];
    }
  }

  lemma CompletePlacementUnique(g: Graph, a: seq<set<Key>>, b: seq<set<Key>>)
    requires Placement(g, a) && Placement(g, b) && Members(a) == Members(b) == g.Keys
    ensures a == b
  {
    if |a| <= |b| {
      PlacementUnique(g, a, b, |a|);
      NothingLeft(g, a, b);
    } else {
      PlacementUnique(g, a, b, |b|);
      NothingLeft(g, b, a);
    }
  }

  lemma NothingLeft(g: Graph, a: seq<set<Key>>, b: seq<set<Key>>)
    requires Placement(g, b) && |a| <= |b| && a[..|a|] == b[..|a|] && Members(a) == g.Keys
    ensures a == b
  {
    hide Next;
    assert a[..|a|] == a && b[..|b|] == b;
    if |a| < |b| {
      NoneNext(g, b[|a|]);
    }
  }

  lemma NoneNext(g: Graph, c: set<Key>)
    ensures !Next(g, g.Keys, c)
  {
    hide Mutual;
    if c != {} { var x :| x in c; }
  }

  /** Every key of the graph is numbered by its place in the listing. */
  ghost predicate Numbers(calls: map<Key, nat>, listing: seq<Key>) {
    && (forall x :: x in calls <==> x in listing)
    && forall i :: 0 <= i < |listing| ==> listing[i] in calls && calls[listing[i]] == i
  }

  /** Each component's index, by member. */
  function ComponentOf(components: seq<set<Key>>): (of: map<Key, nat>)
    requires forall i, j :: 0 <= i < j < |components| ==> components[i] !! components[j]
    ensures forall x :: x in of ==> of[x] < |components| && x in components[of[x]]
    ensures forall i, x :: 0 <= i < |components| && x in components[i] ==> x in of && of[x] == i
  {
    map i, x | 0 <= i < |components| && x in components[i] :: x := i
  }

  /** Each component's callees outside it, as components. */
  function After(g: Graph, of: map<Key, nat>, components: seq<set<Key>>, index: nat): set<nat>
    requires index < |components| && components[index] <= g.Keys
  {
    set member, callee | member in components[index] && callee in g[member] && callee in of && of[callee] != index ::
      of[callee]
  }

  ghost predicate Partition(g: Graph, components: seq<set<Key>>) {
    Components(g, components) && Members(components) == g.Keys
  }

  /** Every node is in exactly the component it is indexed by. */
  ghost predicate Indexed(g: Graph, of: map<Key, nat>, components: seq<set<Key>>) {
    && (forall x :: x in g ==> x in of)
    && (forall x :: x in of ==> of[x] < |components| && x in components[of[x]])
    && (forall i, x :: 0 <= i < |components| && x in components[i] ==> x in g && x in of && of[x] == i)
    && (forall i :: 0 <= i < |components| ==> components[i] <= g.Keys)
  }

  /** The placed components are those the order lists. */
  ghost predicate Tracks(of: map<Key, nat>, components: seq<set<Key>>, placed: set<nat>, order: seq<set<Key>>) {
    && (forall i :: i in placed ==> i < |components|)
    && (forall x :: x in of ==> (x in Members(order) <==> of[x] in placed))
  }

  lemma ComponentIsClass(g: Graph, components: seq<set<Key>>, i: nat)
    requires Partition(g, components) && i < |components|
    ensures Class(g, components[i])
  {
    hide Mutual, PlacedBy;
    forall x | x in components[i] ensures x in g { assert x in Members(components); }
  }

  lemma PartitionIndexed(g: Graph, components: seq<set<Key>>)
    requires Partition(g, components)
    ensures forall i, j :: 0 <= i < j < |components| ==> components[i] !! components[j]
    ensures Indexed(g, ComponentOf(components), components)
  {
    hide Mutual, PlacedBy;
    forall i, x | 0 <= i < |components| && x in components[i] ensures x in g { assert x in Members(components); }
  }

  /** A component is ready exactly when its callees' components are placed. */
  lemma ReadyIndex(g: Graph, of: map<Key, nat>, components: seq<set<Key>>, placed: set<nat>, order: seq<set<Key>>,
      i: nat)
    requires Indexed(g, of, components) && Tracks(of, components, placed, order)
    requires i < |components| && Class(g, components[i])
    ensures Ready(g, Members(order), components[i]) <==> i !in placed && After(g, of, components, i) <= placed
  {
    hide Mutual;
    assert exists x :: x in components[i];
    hide Class, Members;
    if i !in placed && After(g, of, components, i) <= placed {
      forall x, y | x in components[i] && Edge(g, x, y) ensures y in Members(order) + components[i] {
        if of[y] != i { assert of[y] in After(g, of, components, i); }
      }
    } else if Ready(g, Members(order), components[i]) {
      forall j | j in After(g, of, components, i) ensures j in placed {
        var member, callee :| member in components[i] && callee in g[member] && callee in of && of[callee] != i &&
          j == of[callee];
        assert Edge(g, member, callee);
      }
    }
  }

  /** The first component not placed is ready: a component calls only itself and earlier ones. */
  lemma FirstIsReady(g: Graph, of: map<Key, nat>, components: seq<set<Key>>, placed: set<nat>, i: nat)
    requires Partition(g, components) && Indexed(g, of, components)
    requires i < |components|
    requires forall j :: 0 <= j < i ==> j in placed
    ensures After(g, of, components, i) <= placed
  {
    hide Mutual, Members;
    forall k | k in After(g, of, components, i) ensures k in placed {
      var member, callee :| member in components[i] && callee in g[member] && callee in of && of[callee] != i &&
        k == of[callee];
      assert Edge(g, member, callee);
      assert PlacedBy(components, i, callee);
    }
  }

  /** Fewer indices than components are placed, so one of the components is not. */
  lemma OneIsLeft(placed: set<nat>, n: nat)
    requires (forall i :: i in placed ==> i < n) && |placed| < n
    ensures exists i :: 0 <= i < n && i !in placed && forall j :: 0 <= j < i ==> j in placed
  {
    var i := 0;
    while i < n && i in placed
      invariant i <= n && forall j :: 0 <= j < i ==> j in placed
    {
      i := i + 1;
    }
    if i == n {
      Below(placed, n);
    }
  }

  lemma {:induction false} Below(s: set<nat>, n: nat)
    requires forall j :: 0 <= j < n ==> j in s
    ensures |s| >= n
  {
    if n > 0 {
      Below(s - {n - 1}, n - 1);
    }
  }

  lemma {:induction false} AtMost(s: set<nat>, n: nat)
    requires forall i :: i in s ==> i < n
    ensures |s| <= n
  {
    if n > 0 {
      AtMost(s - {n - 1}, n - 1);
    } else {
      assert s == {};
    }
  }

  /** No other ready class exists than the ready components. */
  lemma NextIndex(g: Graph, of: map<Key, nat>, components: seq<set<Key>>, placed: set<nat>, order: seq<set<Key>>,
      next: nat)
    requires Partition(g, components) && Indexed(g, of, components)
    requires Tracks(of, components, placed, order) && next < |components|
    requires forall i :: 0 <= i < |components| ==> components[i] != {}
    requires next !in placed && After(g, of, components, next) <= placed
    requires forall i :: 0 <= i < |components| && i !in placed && After(g, of, components, i) <= placed ==>
               Least(components[next]) <= Least(components[i])
    ensures Next(g, Members(order), components[next])
  {
    hide Partition, Tracks, After, Mutual, Least;
    ComponentIsClass(g, components, next);
    ReadyIndex(g, of, components, placed, order, next);
    forall d | Ready(g, Members(order), d) ensures Least(components[next]) <= Least(d) {
      var x := Least(d);
      var i := of[x];
      ComponentIsClass(g, components, i);
      ClassesMeet(g, d, components[i], x);
      ReadyIndex(g, of, components, placed, order, i);
    }
  }

  /** Some component not placed has all it calls placed. */
  lemma SomeReady(g: Graph, of: map<Key, nat>, components: seq<set<Key>>, placed: set<nat>, order: seq<set<Key>>)
    returns (i: nat)
    requires Partition(g, components) && Indexed(g, of, components)
    requires Tracks(of, components, placed, order) && |placed| < |components|
    requires forall i :: 0 <= i < |components| ==> components[i] != {} && components[i] <= g.Keys
    ensures i < |components| && i !in placed && After(g, of, components, i) <= placed
  {
    hide Partition, Indexed, After;
    TracksBound(of, components, placed, order);
    OneIsLeft(placed, |components|);
    i :| 0 <= i < |components| && i !in placed && forall j :: 0 <= j < i ==> j in placed;
    FirstIsReady(g, of, components, placed, i);
  }

  /** The ready component holding the least key: the `expect` of the source, which never fires. */
  method PickNext(g: Graph, of: map<Key, nat>, components: seq<set<Key>>, placed: set<nat>, ghost order: seq<set<Key>>)
    returns (next: nat)
    requires Partition(g, components) && Indexed(g, of, components)
    requires Tracks(of, components, placed, order) && |placed| < |components|
    requires forall i :: 0 <= i < |components| ==> components[i] != {} && components[i] <= g.Keys
    ensures next < |components| && next !in placed
    ensures Next(g, Members(order), components[next])
  {
    hide Partition, Tracks, Next, Indexed, After, Least;
    var found := false;
    next := 0;
    for i := 0 to |components|
      invariant found ==> next < i && next !in placed && After(g, of, components, next) <= placed
      invariant forall j :: 0 <= j < i && j !in placed && After(g, of, components, j) <= placed ==>
                  found && Least(components[next]) <= Least(components[j])
    {
      if i !in placed && After(g, of, components, i) <= placed {
        if !found || Least(components[i]) < Least(components[next]) {
          found, next := true, i;
        }
      }
    }
    var i := SomeReady(g, of, components, placed, order);
    NextIndex(g, of, components, placed, order, next);
  }

  lemma TracksBound(of: map<Key, nat>, components: seq<set<Key>>, placed: set<nat>, order: seq<set<Key>>)
    requires Tracks(of, components, placed, order)
    ensures forall i :: i in placed ==> i < |components|
  {
  }

  lemma TracksMore(g: Graph, of: map<Key, nat>, components: seq<set<Key>>, placed: set<nat>, order: seq<set<Key>>,
      next: nat)
    requires Indexed(g, of, components) && Tracks(of, components, placed, order) && next < |components|
    ensures Tracks(of, components, placed + {next}, order + [components[next]])
  {
    MembersPush(order, components[next]);
    hide Members;
  }

  /** Numbers the members of a class, in key order, after those numbered before. */
  method NumberClass(calls: map<Key, nat>, ghost listing: seq<Key>, c: set<Key>) returns (more: map<Key, nat>)
    requires Numbers(calls, listing) && |calls| == |listing| && forall x :: x in c ==> x !in listing
    ensures Numbers(more, listing + Ascending(c)) && |more| == |listing + Ascending(c)|
  {
    hide Numbers, Ascending;
    more := calls;
    var members := Ascending(c);
    assert listing + members[..0] == listing;
    for i := 0 to |members|
      invariant Numbers(more, listing + members[..i]) && |more| == |listing| + i
    {
      NextMember(listing, members, i);
      NumbersPush(more, listing + members[..i], members[i]);
      more := more[members[i] := |more|];
    }
    assert members[..|members|] == members;
  }

  lemma NextMember(listing: seq<Key>, members: seq<Key>, i: nat)
    requires i < |members| && members[i] !in listing
    requires forall j, k :: 0 <= j < k < |members| ==> members[j] < members[k]
    ensures members[i] !in listing + members[..i]
    ensures listing + members[..i] + [members[i]] == listing + members[..i + 1]
    ensures |listing + members[..i]| == |listing| + i
  {
  }

  lemma NumbersPush(calls: map<Key, nat>, listing: seq<Key>, x: Key)
    requires Numbers(calls, listing) && x !in listing && |calls| == |listing|
    ensures Numbers(calls[x := |calls|], listing + [x]) && |calls[x := |calls|]| == |calls| + 1
  {
    OneMore(calls, x, |calls|);
  }

  /** Call order: the numbers of the one placement of the graph's classes. */
  method OrderOf(g: Graph) returns (calls: map<Key, nat>, ghost order: seq<set<Key>>)
    ensures Placement(g, order) && Members(order) == g.Keys
    ensures Numbers(calls, Listing(order)) && |calls| == |Listing(order)|
    ensures Ordering(g, calls)
  {
    var components := ComponentsOf(g);
    assert Partition(g, components);
    hide Components, Tracks, Placement, Next, Numbers, Indexed, Members, Listing, Partition, ComponentOf;
    ComponentFacts(g, components);
    PartitionIndexed(g, components);
    var of := ComponentOf(components);
    var placed: set<nat> := {};
    calls, order := map[], [];
    StartPlacement(g, of, components);
    while |placed| < |components|
      invariant Tracks(of, components, placed, order) && Placement(g, order)
      invariant Numbers(calls, Listing(order)) && |calls| == |Listing(order)|
      decreases |components| - |placed|
    {
      var next := PickNext(g, of, components, placed, order);
      NextFacts(g, order, components[next]);
      calls := NumberClass(calls, Listing(order), components[next]);
      ListingPush(order, components[next]);
      TracksMore(g, of, components, placed, order, next);
      PlacementPush(g, order, components[next]);
      MorePlaced(placed, next, |components|);
      placed := placed + {next};
      order := order + [components[next]];
    }
    AllPlaced(g, of, components, placed, order);
    hide Ordering;
    CalleesFirst(g, order, calls);
  }

  /** The nodes numbered 0 to n - 1, each once, and a callee before its caller unless the two call each other. */
  ghost predicate Ordering(g: Graph, calls: map<Key, nat>) {
    && calls.Keys == g.Keys
    && (forall x :: x in g ==> calls[x] < |g|)
    && (forall x, y :: x in g && y in g && calls[x] == calls[y] ==> x == y)
    && (forall x, y {:trigger Edge(g, x, y)} :: Edge(g, x, y) ==> calls[y] < calls[x] || Mutual(g, x, y))
  }

  lemma MorePlaced(placed: set<nat>, next: nat, n: nat)
    requires next !in placed
    ensures |placed + {next}| == |placed| + 1
  {
  }

  lemma ComponentFacts(g: Graph, components: seq<set<Key>>)
    requires Partition(g, components)
    ensures forall i :: 0 <= i < |components| ==> components[i] != {} && components[i] <= g.Keys
    ensures forall i, j :: 0 <= i < j < |components| ==> components[i] !! components[j]
  {
    hide Mutual, PlacedBy;
    forall i, x | 0 <= i < |components| && x in components[i] ensures x in g { assert x in Members(components); }
  }

  lemma StartPlacement(g: Graph, of: map<Key, nat>, components: seq<set<Key>>)
    ensures Tracks(of, components, {}, []) && Placement(g, []) && Numbers(map[], Listing([])) && Listing([]) == []
  {
  }

  lemma NextFacts(g: Graph, order: seq<set<Key>>, c: set<Key>)
    requires Next(g, Members(order), c)
    ensures forall x :: x in c ==> x !in Listing(order)
  {
    hide Mutual, Class;
    forall x | x in c ensures x !in Listing(order) { ListingMembers(order, x); }
  }

  lemma AllPlaced(g: Graph, of: map<Key, nat>, components: seq<set<Key>>, placed: set<nat>, order: seq<set<Key>>)
    requires Tracks(of, components, placed, order) && Placement(g, order) && |placed| >= |components|
    requires Indexed(g, of, components)
    ensures Members(order) == g.Keys
  {
    hide Mutual;
    forall i | 0 <= i < |components| ensures i in placed {
      if i !in placed {
        AtMost(placed + {i}, |components|);
      }
    }
    forall x | x in Members(order) ensures x in g {
      var i :| 0 <= i < |order| && x in order[i];
      assert Next(g, Members(order[..i]), order[i]);
    }
  }

  /**
   What the order is for: the operations and transitions are numbered 0 to n - 1, each once, and a
   callee has a lower number than its caller unless the two call each other, directly or not.
   */
  lemma CalleesFirst(g: Graph, order: seq<set<Key>>, calls: map<Key, nat>)
    requires Placement(g, order) && Members(order) == g.Keys
    requires Numbers(calls, Listing(order)) && |calls| == |Listing(order)|
    ensures Ordering(g, calls)
  {
    hide Mutual, Placement, Members, Listing;
    forall x ensures x in calls <==> x in g { ListingMembers(order, x); }
    assert calls.Keys == g.Keys;
    assert |calls| == |g|;
    forall x | x in g ensures 0 <= calls[x] < |Listing(order)| && Listing(order)[calls[x]] == x {
      var i :| 0 <= i < |Listing(order)| && Listing(order)[i] == x;
    }
    forall x, y | Edge(g, x, y) ensures calls[y] < calls[x] || Mutual(g, x, y) {
      CalleeFirst(g, order, calls, x, y);
    }
  }

  lemma CalleeFirst(g: Graph, order: seq<set<Key>>, calls: map<Key, nat>, x: Key, y: Key)
    requires Placement(g, order) && Members(order) == g.Keys && Numbers(calls, Listing(order)) && Edge(g, x, y)
    ensures x in calls && y in calls && (calls[y] < calls[x] || Mutual(g, x, y))
  {
    hide Mutual, Listing;
    ListingMembers(order, x);
    ListingMembers(order, y);
    var i :| 0 <= i < |order| && x in order[i];
    assert Next(g, Members(order[..i]), order[i]);
    if y in order[i] {
      assert y in order[i] <==> Mutual(g, x, y);
    } else {
      EarlierIsLower(order, calls, i, x, y);
    }
  }

  lemma EarlierIsLower(order: seq<set<Key>>, calls: map<Key, nat>, i: nat, x: Key, y: Key)
    requires Numbers(calls, Listing(order)) && i < |order|
    requires y in Members(order[..i]) && x in Members(order) && x !in Members(order[..i])
    ensures x in calls && y in calls && calls[y] < calls[x]
  {
    hide Members, Listing;
    var before, all := Listing(order[..i]), Listing(order);
    ListingMembers(order[..i], y);
    ListingMembers(order[..i], x);
    ListingMembers(order, x);
    ListingSplit(order, i);
    var k :| 0 <= k < |before| && before[k] == y;
    assert all[k] == y;
    var m :| 0 <= m < |all| && all[m] == x;
    assert forall q :: 0 <= q < |before| ==> all[q] in before;
  }

  lemma {:induction false} ListingSplit(order: seq<set<Key>>, i: nat)
    requires i <= |order|
    ensures Listing(order[..i]) <= Listing(order)
  {
    if i < |order| {
      var n := |order| - 1;
      ListingSplit(order[..n], i);
      assert order[..n][..i] == order[..i];
    } else {
      assert order[..i] == order;
    }
  }

  /** However the components are found, the numbers are the same. */
  lemma OrderSettled(g: Graph, a: seq<set<Key>>, b: seq<set<Key>>, calls: map<Key, nat>, others: map<Key, nat>)
    requires Placement(g, a) && Placement(g, b) && Members(a) == Members(b) == g.Keys
    requires Numbers(calls, Listing(a)) && Numbers(others, Listing(b))
    ensures calls == others
  {
    hide Placement, Members, Listing, Numbers;
    CompletePlacementUnique(g, a, b);
    SameNumbers(calls, others, Listing(a));
  }

  lemma SameNumbers(calls: map<Key, nat>, others: map<Key, nat>, listing: seq<Key>)
    requires Numbers(calls, listing) && Numbers(others, listing)
    ensures calls == others
  {
    forall x | x in calls ensures x in others && calls[x] == others[x] {
      var i :| 0 <= i < |listing| && listing[i] == x;
    }
    assert calls.Keys == others.Keys;
  }
}
