/**
 The work list: items by priority, then in dependency order, each naming the items it depends on.
 */
module WorkList {
  import opened Common
  import opened CallGraph
  import CallOrder

  const USIZE_MAX: nat := 0xFFFF_FFFF_FFFF_FFFF

  /** A declaration's kind; a transaction or effect site also names its operation's key. */
  datatype Kind =
    | Schema | DataModel | DataObject | Outbox | Topic | StateMachine
    | Transaction(operation: Key) | EffectSite(operation: Key) | Transition
    | Program | Input | Operation
    | TopicRuntime | SubscriptionRuntime | OutboxRuntime | ExecutionPool | Router | StorageLayout
    | Service | Requirement | PromptObligation

  /** Priorities in their order: 0 correctness, 1 structure, 2 review, 3 cleanup, 4 parked. */
  datatype Item = Item(key: Key, kind: Kind, priority: nat, dependsOn: seq<Key>)

  datatype Place = Place(group: nat, call: nat)

  function Call(calls: map<Key, nat>, key: Key): nat {
    if key in calls then calls[key] else USIZE_MAX
  }

  /** A declaration's group, and its place in call order within the group of what calls. */
  function Position(calls: map<Key, nat>, key: Key, kind: Kind): Place {
    match kind
    case Transaction(operation) => Place(1, Call(calls, operation))
    case EffectSite(operation) => Place(1, Call(calls, operation))
    case Transition => Place(1, Call(calls, key))
    case Schema => Place(0, 0)
    case DataModel => Place(0, 0)
    case DataObject => Place(0, 0)
    case Outbox => Place(0, 0)
    case Topic => Place(0, 0)
    case StateMachine => Place(0, 0)
    case Program => Place(2, 0)
    case Input => Place(2, 0)
    case Operation => Place(2, 0)
    case TopicRuntime => Place(3, 0)
    case SubscriptionRuntime => Place(3, 0)
    case OutboxRuntime => Place(3, 0)
    case ExecutionPool => Place(3, 0)
    case Router => Place(3, 0)
    case StorageLayout => Place(3, 0)
    case Service => Place(4, 0)
    case Requirement => Place(4, 0)
    case PromptObligation => Place(4, 0)
  }

  /** Dependency order: by group, then call order, then key. */
  predicate Before(calls: map<Key, nat>, kinds: map<Key, Kind>, a: Key, b: Key)
    requires a in kinds && b in kinds
  {
    var p, q := Position(calls, a, kinds[a]), Position(calls, b, kinds[b]);
    p.group < q.group || (p.group == q.group && (p.call < q.call || (p.call == q.call && a < b)))
  }

  predicate Known(kinds: map<Key, Kind>, items: seq<Item>) {
    forall i :: 0 <= i < |items| ==> items[i].key in kinds && items[i].kind == kinds[items[i].key]
  }

  /** List order: by priority, then in dependency order. */
  predicate Earlier(calls: map<Key, nat>, kinds: map<Key, Kind>, a: Item, b: Item)
    requires a.key in kinds && b.key in kinds
  {
    a.priority < b.priority || (a.priority == b.priority && Before(calls, kinds, a.key, b.key))
  }

  ghost predicate Listed(calls: map<Key, nat>, kinds: map<Key, Kind>, items: seq<Item>) {
    && Known(kinds, items)
    && forall i, j :: 0 <= i < j < |items| ==> Earlier(calls, kinds, items[i], items[j])
  }

  function Keys(items: seq<Item>): set<Key> {
    set i | 0 <= i < |items| :: items[i].key
  }

  ghost predicate Distinct(items: seq<Item>) {
    forall i, j :: 0 <= i < j < |items| ==> items[i].key != items[j].key
  }

  /** Puts an item in its place among listed ones. */
  method Insert(calls: map<Key, nat>, kinds: map<Key, Kind>, items: seq<Item>, item: Item) returns (more: seq<Item>)
    requires Listed(calls, kinds, items) && Known(kinds, [item]) && item.key !in Keys(items)
    ensures Listed(calls, kinds, more) && multiset(more) == multiset(items) + multiset{item}
  {
    hide Listed, Keys;
    assert [item][0] == item;
    ListedKnown(calls, kinds, items);
    var at := 0;
    while at < |items| && Earlier(calls, kinds, items[at], item)
      invariant at <= |items|
      invariant forall i :: 0 <= i < at ==> Earlier(calls, kinds, items[i], item)
    {
      at := at + 1;
    }
    more := items[..at] + [item] + items[at..];
    assert items == items[..at] + items[at..];
    LaterBeyond(calls, kinds, items, item, at);
    InsertListed(calls, kinds, items, item, at);
  }

  lemma ListedKnown(calls: map<Key, nat>, kinds: map<Key, Kind>, items: seq<Item>)
    requires Listed(calls, kinds, items)
    ensures Known(kinds, items)
  {
  }

  /** Past the first item not earlier than it, all are later. */
  lemma LaterBeyond(calls: map<Key, nat>, kinds: map<Key, Kind>, items: seq<Item>, item: Item, at: nat)
    requires Listed(calls, kinds, items) && item.key in kinds && item.kind == kinds[item.key]
    requires item.key !in Keys(items) && at <= |items|
    requires at < |items| ==> !Earlier(calls, kinds, items[at], item)
    ensures forall i :: at <= i < |items| ==> Earlier(calls, kinds, item, items[i])
  {
    hide Position;
    forall i | at <= i < |items| ensures Earlier(calls, kinds, item, items[i]) {
      assert items[at].key in Keys(items);
      if i > at { assert Earlier(calls, kinds, items[at], items[i]); }
    }
  }

  lemma InsertListed(calls: map<Key, nat>, kinds: map<Key, Kind>, items: seq<Item>, item: Item, at: nat)
    requires Listed(calls, kinds, items) && item.key in kinds && item.kind == kinds[item.key] && at <= |items|
    requires forall i :: 0 <= i < at ==> Earlier(calls, kinds, items[i], item)
    requires forall i :: at <= i < |items| ==> Earlier(calls, kinds, item, items[i])
    ensures Listed(calls, kinds, items[..at] + [item] + items[at..])
  {
    hide Earlier;
    var more := items[..at] + [item] + items[at..];
    forall i | 0 <= i < |more| ensures more[i] == if i < at then items[i] else if i == at then item else items[i - 1] {}
    assert Known(kinds, more);
    forall i, j | 0 <= i < j < |more| ensures Earlier(calls, kinds, more[i], more[j]) {
    }
  }

  /** The items in list order. */
  method Sort(calls: map<Key, nat>, kinds: map<Key, Kind>, items: seq<Item>) returns (sorted: seq<Item>)
    requires Known(kinds, items) && Distinct(items)
    ensures Listed(calls, kinds, sorted) && multiset(sorted) == multiset(items)
  {
    sorted := [];
    for i := 0 to |items|
      invariant Listed(calls, kinds, sorted) && multiset(sorted) == multiset(items[..i])
    {
      assert items[..i + 1] == items[..i] + [items[i]];
      assert items[i].key !in Keys(sorted) by {
        forall k | 0 <= k < |sorted| ensures sorted[k].key != items[i].key {
          assert sorted[k] in multiset(items[..i]);
        }
      }
      sorted := Insert(calls, kinds, sorted, items[i]);
    }
    assert items[..|items|] == items;
  }

  /** What a listed declaration depends on: the listed ones it refers to that come before it. */
  function Dependencies(calls: map<Key, nat>, kinds: map<Key, Kind>, keys: set<Key>, references: set<Key>,
      key: Key): seq<Key>
    requires key in kinds && keys <= kinds.Keys
  {
    Ascending(set r | r in references && r in keys && Before(calls, kinds, r, key))
  }

  /** An orphaned key is no member of the spec, and depends on nothing. */
  function DependsOn(calls: map<Key, nat>, kinds: map<Key, Kind>, members: set<Key>, keys: set<Key>,
      references: map<Key, set<Key>>, key: Key): seq<Key>
    requires key in kinds && keys <= kinds.Keys && members <= references.Keys
  {
    if key in members then Dependencies(calls, kinds, keys, references[key], key) else []
  }

  /**
   The work list of the items found: in list order, each declaration of the spec with its
   dependencies, an orphaned key with none.
   */
  method Plan(calls: map<Key, nat>, kinds: map<Key, Kind>, members: set<Key>, references: map<Key, set<Key>>,
      found: seq<Item>)
    returns (items: seq<Item>)
    requires Known(kinds, found) && Distinct(found) && members <= references.Keys
    requires forall i :: 0 <= i < |found| ==> found[i].dependsOn == []
    ensures |items| == |found| && Keys(items) == Keys(found)
    ensures Listed(calls, kinds, items)
    ensures forall i :: 0 <= i < |items| ==> items[i].key in kinds && items[i].(dependsOn := []) in found
    ensures Keys(found) <= kinds.Keys
    ensures forall i :: 0 <= i < |items| ==>
              items[i].dependsOn == DependsOn(calls, kinds, members, Keys(found), references, items[i].key)
  {
    hide Before, Dependencies, Position, Ascending;
    items := Sort(calls, kinds, found);
    SameKeys(items, found);
    ghost var sorted := items;
    var keys := Keys(found);
    for i := 0 to |items|
      invariant |items| == |sorted| && forall k :: i <= k < |items| ==> items[k] == sorted[k]
      invariant forall k :: 0 <= k < i ==> items[k].(dependsOn := []) == sorted[k]
      invariant forall k :: 0 <= k < |items| ==> items[k].key in kinds
      invariant forall k :: 0 <= k < i ==>
                  items[k].dependsOn == DependsOn(calls, kinds, members, keys, references, items[k].key)
    {
      assert sorted[i] in multiset(found);
      if items[i].key in members {
        items :=
          items[i := items[i].(dependsOn := Dependencies(calls, kinds, keys, references[items[i].key], items[i].key))];
      }
    }
    forall k | 0 <= k < |items| ensures items[k].(dependsOn := []) in found && items[k].key == sorted[k].key {
      assert sorted[k] in multiset(found);
    }
    assert Keys(items) == Keys(sorted);
  }

  lemma SameKeys(a: seq<Item>, b: seq<Item>)
    requires multiset(a) == multiset(b)
    ensures |a| == |b| && Keys(a) == Keys(b)
  {
    assert |multiset(a)| == |multiset(b)|;
    forall i | 0 <= i < |a| ensures a[i].key in Keys(b) { assert a[i] in multiset(b); }
    forall i | 0 <= i < |b| ensures b[i].key in Keys(a) { assert b[i] in multiset(a); }
  }

  /** Each key of a chain is a dependency of the one before. */
  ghost predicate Chain(calls: map<Key, nat>, kinds: map<Key, Kind>, keys: set<Key>, references: map<Key, set<Key>>,
      chain: seq<Key>)
    requires keys <= kinds.Keys
  {
    && (forall i :: 0 <= i < |chain| ==> chain[i] in kinds && chain[i] in references)
    && forall i, j :: 0 <= i && j == i + 1 < |chain| ==>
         chain[j] in Dependencies(calls, kinds, keys, references[chain[i]], chain[i])
  }

  /** The dependencies have no cycle, whatever the references and the call order are. */
  lemma {:induction false} NoCycle(calls: map<Key, nat>, kinds: map<Key, Kind>, keys: set<Key>,
      references: map<Key, set<Key>>, chain: seq<Key>, k: nat)
    requires keys <= kinds.Keys && Chain(calls, kinds, keys, references, chain) && 0 < k < |chain|
    ensures Before(calls, kinds, chain[k], chain[0])
    ensures chain[k] != chain[0]
  {
    assert chain[k] in Dependencies(calls, kinds, keys, references[chain[k - 1]], chain[k - 1]);
    if k > 1 {
      NoCycle(calls, kinds, keys, references, chain, k - 1);
    }
  }

  /** A dependency stands before its item in the list exactly when it is not less urgent. */
  lemma DependencyPlace(calls: map<Key, nat>, kinds: map<Key, Kind>, items: seq<Item>, references: set<Key>, i: nat,
      j: nat)
    requires Listed(calls, kinds, items) && i < |items| && j < |items| && Keys(items) <= kinds.Keys
    requires items[j].key in Dependencies(calls, kinds, Keys(items), references, items[i].key)
    ensures j < i <==> items[j].priority <= items[i].priority
  {
    BeforePlace(calls, kinds, items, i, j);
  }

  /** The node of the call graph whose place in call order a declaration's work has, if it has one. */
  function CallNode(key: Key, kind: Kind): Option<Key> {
    match kind
    case Transaction(operation) => Some(operation)
    case EffectSite(operation) => Some(operation)
    case Transition => Some(key)
    case _ => None
  }

  /** Whether what one declaration belongs to calls what another belongs to, outside any cycle. */
  ghost predicate Calls(g: Graph, kinds: map<Key, Kind>, a: Key, b: Key)
    requires a in kinds && b in kinds
  {
    var x, y := CallNode(a, kinds[a]), CallNode(b, kinds[b]);
    x.Some? && y.Some? && Edge(g, x.value, y.value) && !Mutual(g, x.value, y.value)
  }

  /** In call order the work of what is called comes before that of what calls it. */
  lemma CalleesBefore(g: Graph, calls: map<Key, nat>, kinds: map<Key, Kind>, a: Key, b: Key)
    requires CallOrder.Ordering(g, calls) && a in kinds && b in kinds && Calls(g, kinds, a, b)
    ensures Before(calls, kinds, b, a) && !Before(calls, kinds, a, b)
  {
    hide Mutual;
  }

  /** So in the list, exactly unless it is less urgent. */
  lemma CalleesListedFirst(g: Graph, calls: map<Key, nat>, kinds: map<Key, Kind>, items: seq<Item>, i: nat, j: nat)
    requires CallOrder.Ordering(g, calls) && Listed(calls, kinds, items) && i < |items| && j < |items|
    requires Calls(g, kinds, items[i].key, items[j].key)
    ensures j < i <==> items[j].priority <= items[i].priority
  {
    CalleesBefore(g, calls, kinds, items[i].key, items[j].key);
    hide Before, Calls, CallOrder.Ordering;
    BeforePlace(calls, kinds, items, i, j);
  }

  /** Of two items, the one before in dependency order stands first exactly unless it is less urgent. */
  lemma BeforePlace(calls: map<Key, nat>, kinds: map<Key, Kind>, items: seq<Item>, i: nat, j: nat)
    requires Listed(calls, kinds, items) && i < |items| && j < |items|
    requires Before(calls, kinds, items[j].key, items[i].key)
    ensures j < i <==> items[j].priority <= items[i].priority
  {
    if i < j {
      assert Earlier(calls, kinds, items[i], items[j]);
    } else if j < i {
      assert Earlier(calls, kinds, items[j], items[i]);
    }
  }

  /** What the rest of a spec is written in. */
  predicate Vocabulary(kind: Kind) {
    kind in {Schema, DataModel, DataObject, Outbox, Topic, StateMachine}
  }

  /** What belongs to something that calls or is called. */
  predicate Calling(kind: Kind) {
    kind.Transaction? || kind.EffectSite? || kind.Transition?
  }

  predicate Operational(kind: Kind) {
    kind in {Program, Input, Operation}
  }

  predicate Runtime(kind: Kind) {
    kind in {TopicRuntime, SubscriptionRuntime, OutboxRuntime, ExecutionPool, Router, StorageLayout}
  }

  /** Vocabulary before what calls, that before operations, those before runtimes, and those before the rest. */
  predicate EarlierGroup(a: Kind, b: Kind) {
    if Vocabulary(b) then false
    else if Calling(b) then Vocabulary(a)
    else if Operational(b) then Vocabulary(a) || Calling(a)
    else if Runtime(b) then Vocabulary(a) || Calling(a) || Operational(a)
    else Vocabulary(a) || Calling(a) || Operational(a) || Runtime(a)
  }

  /** Whether one node is numbered before another; those without a number come last. */
  predicate CalledBefore(calls: map<Key, nat>, a: Key, b: Key) {
    a in calls && if b in calls then calls[a] < calls[b] else calls[a] < USIZE_MAX
  }

  /** Dependency order, group by group: within one, what calls in call order, and then by key. */
  lemma BeforeIs(calls: map<Key, nat>, kinds: map<Key, Kind>, a: Key, b: Key)
    requires a in kinds && b in kinds
    ensures EarlierGroup(kinds[a], kinds[b]) ==> Before(calls, kinds, a, b) && !Before(calls, kinds, b, a)
    ensures !EarlierGroup(kinds[a], kinds[b]) && !EarlierGroup(kinds[b], kinds[a]) && !Calling(kinds[a]) ==>
              !Calling(kinds[b]) && (Before(calls, kinds, a, b) <==> a < b)
    ensures Calling(kinds[a]) && Calling(kinds[b]) ==>
              var x, y := CallNode(a, kinds[a]).value, CallNode(b, kinds[b]).value;
              (CalledBefore(calls, x, y) ==> Before(calls, kinds, a, b) && !Before(calls, kinds, b, a)) &&
              (x == y ==> (Before(calls, kinds, a, b) <==> a < b))
  {
  }

  /** At equal priority what is of an earlier group stands first. */
  lemma EarlierGroupFirst(calls: map<Key, nat>, kinds: map<Key, Kind>, items: seq<Item>, i: nat, j: nat)
    requires Listed(calls, kinds, items) && i < |items| && j < |items|
    requires items[j].priority == items[i].priority && EarlierGroup(items[j].kind, items[i].kind)
    ensures j < i
  {
    BeforeIs(calls, kinds, items[j].key, items[i].key);
    hide Before, EarlierGroup;
    BeforePlace(calls, kinds, items, i, j);
  }

  /** And a listed reference into an earlier group is always a dependency, whatever its priority. */
  lemma EarlierGroupNeeded(calls: map<Key, nat>, kinds: map<Key, Kind>, members: set<Key>, keys: set<Key>,
      references: map<Key, set<Key>>, key: Key, referred: Key)
    requires key in kinds && keys <= kinds.Keys && members <= references.Keys && key in members
    requires referred in references[key] && referred in keys && EarlierGroup(kinds[referred], kinds[key])
    ensures referred in DependsOn(calls, kinds, members, keys, references, key)
  {
    BeforeIs(calls, kinds, referred, key);
    hide Before, EarlierGroup;
    assert referred in Dependencies(calls, kinds, keys, references[key], key);
  }

  /**
   A dependency may well stand after: a data object with less urgent work than the operation that
   refers to it is listed second, and the operation still depends on it.
   */
  lemma DependencyAfter(urgent: nat, later: nat)
    requires urgent < later
    ensures var kinds := map[0 := DataObject, 1 := Operation];
            var items := [Item(1, Operation, urgent, [0]), Item(0, DataObject, later, [])];
            Listed(map[], kinds, items) &&
            items[0].dependsOn == Dependencies(map[], kinds, Keys(items), {0}, 1)
  {
    var kinds: map<Key, Kind> := map[0 := DataObject, 1 := Operation];
    var items := [Item(1, Operation, urgent, [0]), Item(0, DataObject, later, [])];
    assert items[0].key in Keys(items) && items[1].key in Keys(items);
    var referred: set<Key> := set r | r in {0} && r in Keys(items) && Before(map[], kinds, r, 1);
    assert 0 in referred && referred == {0};
    assert Ascending({0}) == [0];
  }

  function Retain(dependsOn: seq<Key>, kept: set<Key>): seq<Key> {
    if dependsOn == [] then [] else
    (if dependsOn[0] in kept then [dependsOn[0]] else []) + Retain(dependsOn[1..], kept)
  }

  lemma {:induction false} RetainMembers(dependsOn: seq<Key>, kept: set<Key>, x: Key)
    ensures x in Retain(dependsOn, kept) <==> x in dependsOn && x in kept
  {
    if dependsOn != [] {
      RetainMembers(dependsOn[1..], kept, x);
    }
  }

  function Owed(items: seq<Item>, owing: set<Key>): seq<Item> {
    if items == [] then [] else
    (if items[0].key in owing then [items[0]] else []) + Owed(items[1..], owing)
  }

  lemma {:induction false} OwedMembers(items: seq<Item>, owing: set<Key>, x: Item)
    ensures x in Owed(items, owing) <==> x in items && x.key in owing
  {
    if items != [] {
      OwedMembers(items[1..], owing, x);
    }
  }

  lemma {:induction false} OwedListed(calls: map<Key, nat>, kinds: map<Key, Kind>, items: seq<Item>, owing: set<Key>)
    requires Listed(calls, kinds, items)
    ensures Listed(calls, kinds, Owed(items, owing))
  {
    hide Earlier;
    if items != [] {
      OwedListed(calls, kinds, items[1..], owing);
      forall k | 0 <= k < |Owed(items[1..], owing)|
        ensures Owed(items[1..], owing)[k] in items[1..]
      {
        OwedMembers(items[1..], owing, Owed(items[1..], owing)[k]);
      }
    }
  }

  /** An item that keeps of its dependencies those in `kept`, and is otherwise the same. */
  ghost predicate Restricted(before: Item, after: Item, kept: set<Key>) {
    && after == before.(dependsOn := after.dependsOn)
    && forall x :: x in after.dependsOn <==> x in before.dependsOn && x in kept
  }

  /**
   The list scoped to what a diff owes: the items owed, in their order, each keeping the dependencies
   that are owed too, and only those.
   */
  method Scoped(calls: map<Key, nat>, kinds: map<Key, Kind>, items: seq<Item>, owing: set<Key>)
    returns (scoped: seq<Item>)
    requires Listed(calls, kinds, items)
    ensures Listed(calls, kinds, scoped)
    ensures |scoped| == |Owed(items, owing)|
    ensures forall i :: 0 <= i < |scoped| ==> Restricted(Owed(items, owing)[i], scoped[i], Keys(scoped))
  {
    OwedListed(calls, kinds, items, owing);
    ghost var owed := Owed(items, owing);
    scoped := Owed(items, owing);
    var kept := Keys(scoped);
    for i := 0 to |scoped|
      invariant |scoped| == |owed| && forall k :: i <= k < |scoped| ==> scoped[k] == owed[k]
      invariant forall k :: 0 <= k < i ==> scoped[k].key == owed[k].key
      invariant forall k :: 0 <= k < i ==> Restricted(owed[k], scoped[k], kept)
    {
      RetainRestricted(scoped[i], kept);
      scoped := scoped[i := scoped[i].(dependsOn := Retain(scoped[i].dependsOn, kept))];
    }
    assert forall i :: 0 <= i < |scoped| ==> scoped[i].key == owed[i].key;
    assert Keys(scoped) == kept;
  }

  lemma RetainRestricted(item: Item, kept: set<Key>)
    ensures Restricted(item, item.(dependsOn := Retain(item.dependsOn, kept)), kept)
  {
    forall x ensures x in Retain(item.dependsOn, kept) <==> x in item.dependsOn && x in kept {
      RetainMembers(item.dependsOn, kept, x);
    }
  }
}
