/**
 What the symbol graph tells of each slice of a workspace a patch can write: which slices have a node,
 and what the node's fingerprint is the fingerprint of.

 A fingerprint is represented by that content. The symbols derived from the slices are a parameter.
 */
module Slices {
  import opened Common
  import opened Program
  import opened Proposals
  import opened Patch

  datatype Fingerprint =
    | OfContent(content: Content)
    | OfDraft(draft: Draft)
    | OfProgram(program: Option<Block>)
    | OfRequirements(requirements: OperationRequirements)
    | OfObligation(obligation: Obligation)
    | OfDerived(derived: nat)

  /** The node of a slice: an operation's covers its whole draft, stage included; an outbox runtime has none. */
  function Told(w: State, s: Symbol): Option<Fingerprint> {
    match s
    case Shared(table, id) => if (table, id) in w.shared then Some(OfContent(w.shared[(table, id)])) else None
    case Operation(id) => if id in w.operations then Some(OfDraft(w.operations[id])) else None
    case OperationInterface(id) => if id in w.operations then Some(OfContent(w.operations[id].interface)) else None
    case OperationProgram(id) => if id in w.operations then Some(OfProgram(w.operations[id].program)) else None
    case OperationRequirementsOf(id) =>
      if id in w.operations then Some(OfRequirements(w.operations[id].requirements)) else None
    case SubscriptionRuntime(operation, input) =>
      var held := InnerAt(w.subscriptions, operation, input);
      if held.Some? then Some(OfContent(held.value)) else None
    case OutboxRuntime(_, _) => None
    case PromptObligation(id) => if id in w.obligations then Some(OfObligation(w.obligations[id])) else None
    case Derived(_) => None
  }

  /** The slices that have a node. */
  function SliceNodes(w: State): set<Symbol> {
    (set k | k in w.shared :: Shared(k.0, k.1)) +
    (set id | id in w.operations :: Operation(id)) +
    (set id | id in w.operations :: OperationInterface(id)) +
    (set id | id in w.operations :: OperationProgram(id)) +
    (set id | id in w.operations :: OperationRequirementsOf(id)) +
    (set o, i | o in w.subscriptions && i in w.subscriptions[o] :: SubscriptionRuntime(o, i)) +
    (set id | id in w.obligations :: PromptObligation(id))
  }

  /** The graph's fingerprints by symbol: the slices', and those of the symbols derived from them. */
  function Nodes(w: State, derived: map<Id, nat>): map<Symbol, Fingerprint> {
    (map s | s in SliceNodes(w) && Told(w, s).Some? :: Told(w, s).value) +
    (map id | id in derived :: Derived(id) := OfDerived(derived[id]))
  }

  /** What the graph says of a symbol is what its slice is told by, or what is derived. */
  lemma NodesTell(w: State, derived: map<Id, nat>, s: Symbol)
    ensures Get(Nodes(w, derived), s) ==
            if s.Derived? then (if s.id in derived then Some(OfDerived(derived[s.id])) else None) else Told(w, s)
  {
    assert Told(w, s).Some? ==> s in SliceNodes(w) by { HasNode(w, s); }
    if s.Derived? {
      assert s !in SliceNodes(w);
      assert s.id in derived ==> Derived(s.id) in (map id | id in derived :: Derived(id) := OfDerived(derived[id]));
    }
  }

  lemma HasNode(w: State, s: Symbol)
    ensures Told(w, s).Some? ==> s in SliceNodes(w)
  {
    if s.Shared? && (s.table, s.id) in w.shared { assert Shared((s.table, s.id).0, (s.table, s.id).1) == s; }
  }

  /** Whether what the graph tells of a symbol settles every slice that naming it names. */
  ghost predicate Protects(t: Symbol) {
    forall a: State, b: State {:trigger Told(a, t), Told(b, t)} :: Told(a, t) == Told(b, t) ==> SameSlices(a, b, t)
  }

  ghost predicate SameSlices(a: State, b: State, t: Symbol) {
    forall s: Symbol :: Covers(t, s) ==> SliceOf(a, s) == SliceOf(b, s)
  }

  /** Told alike, the slices named are alike, of any symbol but an outbox runtime. */
  lemma ToldAlike(a: State, b: State, t: Symbol)
    requires Told(a, t) == Told(b, t) && !t.OutboxRuntime?
    ensures SameSlices(a, b, t)
    ensures t.PromptObligation? ==> Get(a.obligations, t.id) == Get(b.obligations, t.id)
  {
    hide InnerAt;
  }

  /** A workspace holding one outbox runtime and nothing else. */
  function OneOutbox(operation: Id, input: Id, value: Content): State {
    State(map[], map[], map[], map[operation := map[input := value]], map[], [], Policy(false, false))
  }

  /** The graph guards every slice a patch can name exactly unless it is an outbox runtime's. */
  lemma ProtectsAllButOutboxes(t: Symbol)
    ensures Protects(t) <==> !t.OutboxRuntime?
  {
    if t.OutboxRuntime? {
      var a, b := OneOutbox(t.operation, t.input, 0), OneOutbox(t.operation, t.input, 1);
      assert Told(a, t) == Told(b, t);
      assert Covers(t, t) && SliceOf(a, t) == Held(Some(0)) && SliceOf(b, t) == Held(Some(1));
    } else {
      forall a: State, b: State | Told(a, t) == Told(b, t) ensures SameSlices(a, b, t) { ToldAlike(a, b, t); }
    }
  }
}
