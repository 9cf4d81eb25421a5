/**
 Patches: which symbols a mutation may change, and what applying one to a candidate workspace does.
 */
module Patch {
  import opened Common
  import opened SortDedup
  import opened Program
  import opened Proposals
  import R = Requirements

  datatype Mutation =
    | PutShared(table: Table, id: Id, value: Content)
    | PutInterface(operation: Id, value: Content)
    | ReplaceProgram(operation: Id, program: Block)
    | ReplaceRequirements(operation: Id, requirements: OperationRequirements)
    | PutSubscription(operation: Id, input: Id, value: Content)
    | PutOutbox(operation: Id, input: Id, value: Content)
    | Propose(operation: Id, proposals: seq<Submission>)
    | PutObligation(id: Id, obligation: Obligation)
    | DeleteTopLevel(symbol: Symbol)

  /** The symbol a mutation is addressed to. */
  function WriteTarget(m: Mutation): Symbol {
    match m
    case PutShared(table, id, _) => Shared(table, id)
    case PutInterface(operation, _) => OperationInterface(operation)
    case ReplaceProgram(operation, _) => OperationProgram(operation)
    case ReplaceRequirements(operation, _) => OperationRequirementsOf(operation)
    case PutSubscription(operation, input, _) => SubscriptionRuntime(operation, input)
    case PutOutbox(operation, input, _) => OutboxRuntime(operation, input)
    case Propose(operation, _) => OperationRequirementsOf(operation)
    case PutObligation(id, _) => PromptObligation(id)
    case DeleteTopLevel(symbol) => symbol
  }

  predicate NamesTransaction(proposals: seq<Submission>) {
    exists k :: 0 <= k < |proposals| && TransactionOf(proposals[k].requirement).Some?
  }

  /** The symbols whose fingerprint a mutation may change: a proposal for a transaction rewrites the program. */
  function ConflictFootprint(m: Mutation): seq<Symbol> {
    [WriteTarget(m)] + if m.Propose? && NamesTransaction(m.proposals) then [OperationProgram(m.operation)] else []
  }

  function Footprints(patch: seq<Mutation>): seq<Symbol> {
    if patch == [] then [] else Footprints(patch[..|patch| - 1]) + ConflictFootprint(patch[|patch| - 1])
  }

  /** The symbols a patch may change, in the symbols' order. */
  function WriteTargets(less: (Symbol, Symbol) -> bool, patch: seq<Mutation>): seq<Symbol> {
    Canonical(less, Footprints(patch))
  }

  /** Whether writing a target satisfies a reference: it is that symbol, or the operation its interface plans. */
  predicate Satisfies(target: Symbol, reference: Symbol) {
    target == reference || (target.OperationInterface? && reference == Operation(target.id))
  }

  predicate WrittenHere(written: seq<Symbol>, reference: Symbol) {
    exists t :: t in written && Satisfies(t, reference)
  }

  /** Just what a patch may change: each mutation's target, and the program a transaction's proposal rewrites. */
  lemma {:induction false} FootprintsAre(patch: seq<Mutation>, s: Symbol)
    ensures s in Footprints(patch) <==>
            exists m :: m in patch &&
              (s == WriteTarget(m) ||
               (m.Propose? && s == OperationProgram(m.operation) && NamesTransaction(m.proposals)))
  {
    if patch != [] {
      FootprintsAre(patch[..|patch| - 1], s);
      assert patch == patch[..|patch| - 1] + [patch[|patch| - 1]];
      hide WriteTarget, NamesTransaction;
    }
  }

  /** A reference is satisfied by writing the symbol itself, or for an operation by planning its interface. */
  lemma WrittenHereIs(written: seq<Symbol>, reference: Symbol)
    ensures WrittenHere(written, reference) <==>
            reference in written || (reference.Operation? && OperationInterface(reference.id) in written)
  {
    assert reference in written ==> Satisfies(reference, reference);
    if reference.Operation? { assert Satisfies(OperationInterface(reference.id), reference); }
  }

  /** The references a patch's content makes to symbols it does not itself write, in the symbols' order. */
  method ExternalReferences(less: (Symbol, Symbol) -> bool, patch: seq<Mutation>, collected: seq<Symbol>)
    returns (references: seq<Symbol>)
    requires StrictOrder(less)
    ensures Strict(less, references)
    ensures forall r :: r in references <==> r in collected && !WrittenHere(Footprints(patch), r)
  {
    hide StrictOrder, Satisfies;
    CanonicalHolds(less, Footprints(patch));
    var written := WriteTargets(less, patch);
    references := [];
    for i := 0 to |collected|
      invariant forall r :: r in references <==> r in collected[..i] && !WrittenHere(written, r)
    {
      assert collected[..i + 1] == collected[..i] + [collected[i]];
      if !WrittenHere(written, collected[i]) {
        references := references + [collected[i]];
      }
    }
    assert collected[..|collected|] == collected;
    CanonicalHolds(less, references);
    ghost var kept := references;
    references := Canonical(less, references);
    assert forall r :: WrittenHere(written, r) <==> WrittenHere(Footprints(patch), r);
  }

  datatype State = State(
    shared: map<(Table, Id), Content>,
    operations: map<Id, Draft>,
    subscriptions: map<Id, map<Id, Content>>,
    outboxes: map<Id, map<Id, Content>>,
    obligations: map<Id, Obligation>,
    proposals: seq<Proposal>,
    policy: Policy)

  function Undrafted(interface: Content): Draft {
    Draft(interface, None, OperationRequirements([], []), Planned)
  }

  function PutInner(outer: map<Id, map<Id, Content>>, operation: Id, input: Id,
      value: Content): map<Id, map<Id, Content>> {
    outer[operation := (if operation in outer then outer[operation] else map[])[input := value]]
  }

  /** Without an input's entry, and without any operation left with none. */
  function DropInner(outer: map<Id, map<Id, Content>>, operation: Id, input: Id): map<Id, map<Id, Content>> {
    var cut := if operation in outer then outer[operation := outer[operation] - {input}] else outer;
    map k | k in cut && cut[k] != map[] :: cut[k]
  }

  function InnerAt(outer: map<Id, map<Id, Content>>, operation: Id, input: Id): Option<Content> {
    if operation in outer && input in outer[operation] then Some(outer[operation][input]) else None
  }

  function Proposing(state: State, operation: Id, proposals: seq<Submission>): (State, seq<Diagnostic>) {
    if operation !in state.operations then (state, [Undeclared(Operation(operation))])
    else
      var books :=
        BookedAll(Books(state.operations[operation], state.obligations, state.proposals, []), state.policy, operation,
          proposals);
      (state.(operations := state.operations[operation := Staged(books.draft)], obligations := books.obligations,
        proposals := books.proposals),
       books.diagnostics)
  }

  function Deleting(state: State, symbol: Symbol): (State, seq<Diagnostic>) {
    var missing := [Undeclared(symbol)];
    match symbol
    case Shared(table, id) =>
      (state.(shared := state.shared - {(table, id)}), if (table, id) in state.shared then [] else missing)
    case Operation(id) =>
      (state.(operations := state.operations - {id}), if id in state.operations then [] else missing)
    case SubscriptionRuntime(operation, input) =>
      (state.(subscriptions := DropInner(state.subscriptions, operation, input)),
       if InnerAt(state.subscriptions, operation, input).Some? then [] else missing)
    case OutboxRuntime(operation, input) =>
      (state.(outboxes := DropInner(state.outboxes, operation, input)),
       if InnerAt(state.outboxes, operation, input).Some? then [] else missing)
    case PromptObligation(id) =>
      (state.(obligations := state.obligations - {id}), if id in state.obligations then [] else missing)
    case _ => (state, [NotTopLevel(symbol)])
  }

  /** One mutation, from the workspace found to the workspace left and the diagnostics raised. */
  function Apply(state: State, m: Mutation): (State, seq<Diagnostic>) {
    match m
    case PutShared(table, id, value) => (state.(shared := state.shared[(table, id) := value]), [])
    case PutInterface(operation, value) =>
      (state.(operations := state.operations[operation :=
         if operation in state.operations then Staged(state.operations[operation].(interface := value))
         else Undrafted(value)]), [])
    case ReplaceProgram(operation, program) =>
      if operation !in state.operations then (state, [Undeclared(Operation(operation))])
      else
        var draft := Staged(state.operations[operation].(program := Some(program)));
        (state.(operations := state.operations[operation := draft]), [])
    case ReplaceRequirements(operation, requirements) =>
      if operation !in state.operations then (state, [Undeclared(Operation(operation))])
      else
        var draft := Staged(state.operations[operation].(requirements := requirements));
        (state.(operations := state.operations[operation := draft]), [])
    case PutSubscription(operation, input, value) =>
      (state.(subscriptions := PutInner(state.subscriptions, operation, input, value)), [])
    case PutOutbox(operation, input, value) =>
      (state.(outboxes := PutInner(state.outboxes, operation, input, value)), [])
    case Propose(operation, proposals) => Proposing(state, operation, proposals)
    case PutObligation(id, obligation) => (state.(obligations := state.obligations[id := obligation]), [])
    case DeleteTopLevel(symbol) => Deleting(state, symbol)
  }

  function ApplyAll(state: State, patch: seq<Mutation>): (State, seq<Diagnostic>)
    decreases |patch|
  {
    if patch == [] then (state, []) else
    var before := ApplyAll(state, patch[..|patch| - 1]);
    var after := Apply(before.0, patch[|patch| - 1]);
    (after.0, before.1 + after.1)
  }

  /** A candidate workspace, changed in place by a patch and discarded if that raises a diagnostic. */
  class Candidate {
    var shared: map<(Table, Id), Content>
    var operations: map<Id, Draft>
    var subscriptions: map<Id, map<Id, Content>>
    var outboxes: map<Id, map<Id, Content>>
    var obligations: map<Id, Obligation>
    var proposals: seq<Proposal>
    const policy: Policy

    ghost function Now(): State
      reads this
    {
      State(shared, operations, subscriptions, outboxes, obligations, proposals, policy)
    }

    constructor (state: State)
      ensures Now() == state
    {
      shared, operations, subscriptions, outboxes :=
        state.shared, state.operations, state.subscriptions, state.outboxes;
      obligations, proposals, policy := state.obligations, state.proposals, state.policy;
    }

    method MapObligation(id: Id, reference: Ref)
      modifies this`obligations
      ensures obligations == MapIn(old(obligations), id, reference)
    {
      if id !in obligations { return; }
      var obligation := obligations[id];
      match obligation.status {
        case Unmapped => obligations := obligations[id := obligation.(status := Mapped([reference]))];
        case Mapped(requirements) =>
          if reference !in requirements {
            obligations := obligations[id := obligation.(status := Mapped(requirements + [reference]))];
          }
        case Unsupported =>
        case Waived =>
      }
    }

    /** Records each submission and adopts what the policy adopts. */
    method ApplyProposals(operation: Id, submissions: seq<Submission>) returns (diagnostics: seq<Diagnostic>)
      modifies this`operations, this`obligations, this`proposals
      ensures (Now(), diagnostics) == Proposing(old(Now()), operation, submissions)
    {
      hide Judged, Staged, MapIn;
      if operation !in operations { return [Undeclared(Operation(operation))]; }
      diagnostics := [];
      var draft := operations[operation];
      ghost var books := Books(draft, obligations, proposals, []);
      for i := 0 to |submissions|
        invariant Books(draft, obligations, proposals, diagnostics) ==
                  BookedAll(books, policy, operation, submissions[..i])
        invariant operations == old(operations)
      {
        assert submissions[..i + 1][..i] == submissions[..i];
        var submission := submissions[i];
        if submission.origin.ExplicitPrompt? && submission.origin.obligation !in obligations {
          diagnostics := diagnostics + [Undeclared(PromptObligation(submission.origin.obligation))];
        } else {
          var judged := Judged(draft, policy, operation, submission);
          if judged.1.None? {
            JudgedNone(draft, policy, operation, submission);
            diagnostics :=
              diagnostics + [NoTransaction(OperationRequirementsOf(operation), submission.requirement.transaction)];
          } else {
            draft := judged.0;
            if submission.origin.ExplicitPrompt? && !judged.1.value.Advisory? {
              MapObligation(submission.origin.obligation, judged.1.value.reference);
            }
            proposals := proposals + [Proposal(operation, submission.requirement, submission.origin, judged.1.value)];
          }
        }
      }
      assert submissions[..|submissions|] == submissions;
      operations := operations[operation := Staged(draft)];
    }

    method ApplyMutation(m: Mutation) returns (diagnostics: seq<Diagnostic>)
      modifies this
      ensures (Now(), diagnostics) == Apply(old(Now()), m)
    {
      hide Staged, Proposing, DropInner;
      diagnostics := [];
      match m {
        case PutShared(table, id, value) => shared := shared[(table, id) := value];
        case PutInterface(operation, value) =>
          if operation in operations {
            operations := operations[operation := Staged(operations[operation].(interface := value))];
          } else {
            operations := operations[operation := Undrafted(value)];
          }
        case ReplaceProgram(operation, program) =>
          if operation in operations {
            operations := operations[operation := Staged(operations[operation].(program := Some(program)))];
          } else {
            diagnostics := [Undeclared(Operation(operation))];
          }
        case ReplaceRequirements(operation, requirements) =>
          if operation in operations {
            operations := operations[operation := Staged(operations[operation].(requirements := requirements))];
          } else {
            diagnostics := [Undeclared(Operation(operation))];
          }
        case PutSubscription(operation, input, value) =>
          subscriptions := PutInner(subscriptions, operation, input, value);
        case PutOutbox(operation, input, value) => outboxes := PutInner(outboxes, operation, input, value);
        case Propose(operation, submissions) => diagnostics := ApplyProposals(operation, submissions);
        case PutObligation(id, obligation) => obligations := obligations[id := obligation];
        case DeleteTopLevel(symbol) => diagnostics := Delete(symbol);
      }
    }

    method Delete(symbol: Symbol) returns (diagnostics: seq<Diagnostic>)
      modifies this
      ensures (Now(), diagnostics) == Deleting(old(Now()), symbol)
    {
      hide DropInner;
      var removed := false;
      match symbol {
        case Shared(table, id) =>
          removed := (table, id) in shared;
          shared := shared - {(table, id)};
        case Operation(id) =>
          removed := id in operations;
          operations := operations - {id};
        case SubscriptionRuntime(operation, input) =>
          removed := InnerAt(subscriptions, operation, input).Some?;
          subscriptions := DropInner(subscriptions, operation, input);
        case OutboxRuntime(operation, input) =>
          removed := InnerAt(outboxes, operation, input).Some?;
          outboxes := DropInner(outboxes, operation, input);
        case PromptObligation(id) =>
          removed := id in obligations;
          obligations := obligations - {id};
        case _ => return [NotTopLevel(symbol)];
      }
      diagnostics := if removed then [] else [Undeclared(symbol)];
    }

    /** Applies a patch mutation by mutation; only when none complains is the result checked. */
    method ApplyPatch(patch: seq<Mutation>, check: (State, seq<Mutation>) -> seq<Diagnostic>)
      returns (diagnostics: seq<Diagnostic>)
      modifies this
      ensures Now() == ApplyAll(old(Now()), patch).0
      ensures var raised := ApplyAll(old(Now()), patch).1;
              diagnostics == if raised == [] then check(Now(), patch) else raised
    {
      hide Apply;
      diagnostics := [];
      for i := 0 to |patch|
        invariant (Now(), diagnostics) == ApplyAll(old(Now()), patch[..i])
      {
        assert patch[..i + 1][..i] == patch[..i];
        var more := ApplyMutation(patch[i]);
        diagnostics := diagnostics + more;
      }
      assert patch[..|patch|] == patch;
      if diagnostics == [] {
        diagnostics := check(State(shared, operations, subscriptions, outboxes, obligations, proposals, policy), patch);
      }
    }
  }

  lemma JudgedNone(draft: Draft, policy: Policy, operation: Id, submission: Submission)
    ensures Judged(draft, policy, operation, submission).1.None? ==>
              TransactionOf(submission.requirement).Some? && Judged(draft, policy, operation, submission).0 == draft
  {
    hide Find, Position, Landed;
  }

  /** What a symbol's slice of the workspace holds. */
  datatype Slice =
    | Held(content: Option<Content>)
    | Declared(there: bool)
    | HeldProgram(program: Option<Block>)
    | HeldRequirements(requirements: OperationRequirements)
    | NotASlice

  /**
   A symbol's slice. An operation not declared holds no program and no requirements; of an obligation
   the slice is all but the status, which adoption writes.
   */
  function SliceOf(state: State, symbol: Symbol): Slice {
    match symbol
    case Shared(table, id) => Held(Get(state.shared, (table, id)))
    case Operation(id) => Declared(id in state.operations)
    case OperationInterface(id) => Held(if id in state.operations then Some(state.operations[id].interface) else None)
    case OperationProgram(id) => HeldProgram(if id in state.operations then state.operations[id].program else None)
    case OperationRequirementsOf(id) =>
      HeldRequirements(
        if id in state.operations then state.operations[id].requirements else OperationRequirements([], []))
    case SubscriptionRuntime(operation, input) => Held(InnerAt(state.subscriptions, operation, input))
    case OutboxRuntime(operation, input) => Held(InnerAt(state.outboxes, operation, input))
    case PromptObligation(id) => Held(if id in state.obligations then Some(state.obligations[id].text) else None)
    case Derived(_) => NotASlice
  }

  function StatusOf(state: State, id: Id): Option<ObligationStatus> {
    if id in state.obligations then Some(state.obligations[id].status) else None
  }

  /** Whether naming one symbol names another: an operation its slices, and an interface the operation it plans. */
  predicate Covers(target: Symbol, symbol: Symbol) {
    || target == symbol
    || (target.Operation? && (symbol == OperationInterface(target.id) || symbol == OperationProgram(target.id) ||
                              symbol == OperationRequirementsOf(target.id)))
    || (target.OperationInterface? && symbol == Operation(target.id))
  }

  predicate Covered(targets: seq<Symbol>, symbol: Symbol) {
    exists t :: t in targets && Covers(t, symbol)
  }

  predicate Prompts(patch: seq<Mutation>, id: Id) {
    exists k :: 0 <= k < |patch| && patch[k].Propose? && Prompted(patch[k].proposals, id)
  }

  /** Nothing but the slices named changes, save stages, the record of proposals, and the statuses prompted. */
  ghost predicate Framed(before: State, after: State, targets: seq<Symbol>, patch: seq<Mutation>) {
    && (forall s: Symbol :: !Covered(targets, s) ==> SliceOf(after, s) == SliceOf(before, s))
    && (forall id: Id :: !Covered(targets, PromptObligation(id)) && !Prompts(patch, id) ==>
         StatusOf(after, id) == StatusOf(before, id))
    && before.proposals <= after.proposals && after.policy == before.policy
  }

  /** A batch leaves the interface and the stage alone, and the program too unless it names a transaction. */
  lemma {:induction false} BatchFrame(books: Books, policy: Policy, operation: Id, submissions: seq<Submission>)
    ensures var after := BookedAll(books, policy, operation, submissions);
            after.draft.interface == books.draft.interface && after.draft.stage == books.draft.stage &&
            (!NamesTransaction(submissions) ==> after.draft.program == books.draft.program)
    decreases |submissions|
  {
    if submissions != [] {
      BatchFrame(books, policy, operation, submissions[..|submissions| - 1]);
      hide Find, Position, Update;
    }
  }

  lemma InnerFrame(outer: map<Id, map<Id, Content>>, operation: Id, input: Id, value: Content, other: Id, at: Id)
    ensures InnerAt(PutInner(outer, operation, input, value), other, at) ==
            if other == operation && at == input then Some(value) else InnerAt(outer, other, at)
    ensures InnerAt(DropInner(outer, operation, input), other, at) ==
            if other == operation && at == input then None else InnerAt(outer, other, at)
  {
    var cut := if operation in outer then outer[operation := outer[operation] - {input}] else outer;
    if other in cut && at in cut[other] {
      assert at in cut[other].Keys && cut[other] != map[];
      assert other in DropInner(outer, operation, input);
    }
  }

  lemma StagedKeeps(draft: Draft)
    ensures Staged(draft) == draft.(stage := Staged(draft).stage)
  {
  }

  lemma DeleteFrame(state: State, symbol: Symbol, s: Symbol)
    requires !Covers(symbol, s)
    ensures SliceOf(Deleting(state, symbol).0, s) == SliceOf(state, s)
  {
    hide DropInner, InnerAt;
    if symbol.SubscriptionRuntime? && s.SubscriptionRuntime? {
      InnerFrame(state.subscriptions, symbol.operation, symbol.input, 0, s.operation, s.input);
    }
    if symbol.OutboxRuntime? && s.OutboxRuntime? {
      InnerFrame(state.outboxes, symbol.operation, symbol.input, 0, s.operation, s.input);
    }
  }

  lemma DeleteStatus(state: State, symbol: Symbol, id: Id)
    requires symbol != PromptObligation(id)
    ensures StatusOf(Deleting(state, symbol).0, id) == StatusOf(state, id)
  {
    hide DropInner, InnerAt;
  }

  lemma NotCoveredBy(targets: seq<Symbol>, s: Symbol, i: nat)
    requires !Covered(targets, s) && i < |targets|
    ensures !Covers(targets[i], s)
  {
    assert targets[i] in targets;
  }

  lemma ProposeFrame(state: State, operation: Id, submissions: seq<Submission>, s: Symbol)
    requires !Covered(ConflictFootprint(Propose(operation, submissions)), s)
    ensures SliceOf(Proposing(state, operation, submissions).0, s) == SliceOf(state, s)
  {
    if operation in state.operations {
      var books := Books(state.operations[operation], state.obligations, state.proposals, []);
      BatchFrame(books, state.policy, operation, submissions);
      BatchRecords(books, state.policy, operation, submissions);
      var after := BookedAll(books, state.policy, operation, submissions);
      hide BookedAll, Staged, Batch, Recorded;
      StagedKeeps(after.draft);
      var m := Propose(operation, submissions);
      NotCoveredBy(ConflictFootprint(m), s, 0);
      if NamesTransaction(submissions) { NotCoveredBy(ConflictFootprint(m), s, 1); }
      if s.PromptObligation? && s.id in state.obligations {
        assert Kept(state.obligations[s.id], after.obligations[s.id]);
      }
    }
  }

  /** One mutation changes only the slices its footprint covers. */
  lemma MutationFrame(state: State, m: Mutation, s: Symbol)
    requires !Covered(ConflictFootprint(m), s)
    ensures SliceOf(Apply(state, m).0, s) == SliceOf(state, s)
  {
    NotCoveredBy(ConflictFootprint(m), s, 0);
    hide Covered, Staged, Proposing, Deleting, PutInner, InnerAt, NamesTransaction;
    match m
    case PutShared(_, _, _) =>
    case PutInterface(operation, value) =>
      if operation in state.operations { StagedKeeps(state.operations[operation].(interface := value)); }
    case ReplaceProgram(operation, program) =>
      if operation in state.operations { StagedKeeps(state.operations[operation].(program := Some(program))); }
    case ReplaceRequirements(operation, requirements) =>
      if operation in state.operations { StagedKeeps(state.operations[operation].(requirements := requirements)); }
    case PutSubscription(operation, input, value) =>
      if s.SubscriptionRuntime? { InnerFrame(state.subscriptions, operation, input, value, s.operation, s.input); }
    case PutOutbox(operation, input, value) =>
      if s.OutboxRuntime? { InnerFrame(state.outboxes, operation, input, value, s.operation, s.input); }
    case Propose(operation, submissions) => ProposeFrame(state, operation, submissions, s);
    case PutObligation(_, _) =>
    case DeleteTopLevel(symbol) => DeleteFrame(state, symbol, s);
  }

  lemma MutationStatus(state: State, m: Mutation, id: Id)
    requires !Covered(ConflictFootprint(m), PromptObligation(id)) && !Prompts([m], id)
    ensures StatusOf(Apply(state, m).0, id) == StatusOf(state, id)
  {
    NotCoveredBy(ConflictFootprint(m), PromptObligation(id), 0);
    hide Covered, Staged, PutInner, InnerAt, BookedAll, Batch, Kept, Recorded;
    if m.Propose? && m.operation in state.operations {
      assert [m][0].Propose?;
      BatchRecords(Books(state.operations[m.operation], state.obligations, state.proposals, []), state.policy,
        m.operation, m.proposals);
    }
    if m.DeleteTopLevel? { DeleteStatus(state, m.symbol, id); }
  }

  lemma MutationLog(state: State, m: Mutation)
    ensures state.proposals <= Apply(state, m).0.proposals && Apply(state, m).0.policy == state.policy
  {
    hide Staged, PutInner, InnerAt, DropInner, BookedAll;
    if m.Propose? && m.operation in state.operations {
      BatchHolds(Books(state.operations[m.operation], state.obligations, state.proposals, []), state.policy,
        m.operation, m.proposals);
    }
  }

  lemma CoveredBoth(a: seq<Symbol>, b: seq<Symbol>, s: Symbol)
    requires !Covered(a + b, s)
    ensures !Covered(a, s) && !Covered(b, s)
  {
    forall t | t in a ensures !Covers(t, s) { assert t in a + b; }
    forall t | t in b ensures !Covers(t, s) { assert t in a + b; }
  }

  lemma PromptsParts(patch: seq<Mutation>, id: Id)
    requires patch != [] && !Prompts(patch, id)
    ensures !Prompts(patch[..|patch| - 1], id) && !Prompts([patch[|patch| - 1]], id)
  {
    var m := patch[|patch| - 1];
    assert [m][0] == m;
  }

  /**
   The frame of a patch: applying it, with or without diagnostics, changes only the slices its mutations'
   conflict footprints name, so what it does not address is never overwritten.
   */
  lemma {:induction false} PatchFrame(state: State, patch: seq<Mutation>)
    ensures Framed(state, ApplyAll(state, patch).0, Footprints(patch), patch)
    decreases |patch|
  {
    if patch != [] {
      var front, m := patch[..|patch| - 1], patch[|patch| - 1];
      PatchFrame(state, front);
      var middle, after := ApplyAll(state, front).0, ApplyAll(state, patch).0;
      MutationLog(middle, m);
      hide Apply, Covered, SliceOf, StatusOf, Prompts, ConflictFootprint;
      forall s: Symbol | !Covered(Footprints(patch), s) ensures SliceOf(after, s) == SliceOf(state, s) {
        CoveredBoth(Footprints(front), ConflictFootprint(m), s);
        MutationFrame(middle, m, s);
      }
      forall id: Id | !Covered(Footprints(patch), PromptObligation(id)) && !Prompts(patch, id)
        ensures StatusOf(after, id) == StatusOf(state, id)
      {
        CoveredBoth(Footprints(front), ConflictFootprint(m), PromptObligation(id));
        PromptsParts(patch, id);
        MutationStatus(middle, m, id);
      }
    }
  }

  /** The write targets cover just what the footprints do, whatever the order of the mutations. */
  lemma TargetsCover(less: (Symbol, Symbol) -> bool, patch: seq<Mutation>, other: seq<Mutation>)
    requires StrictOrder(less)
    ensures Strict(less, WriteTargets(less, patch)) && Alike(WriteTargets(less, patch), Footprints(patch))
    ensures Alike(Footprints(patch), Footprints(other)) ==> WriteTargets(less, patch) == WriteTargets(less, other)
  {
    CanonicalHolds(less, Footprints(patch));
    CanonicalBySet(less, Footprints(patch), Footprints(other));
  }

  /** What a mutation's target holds once it is applied; a proposal brings nothing by itself. */
  function Brought(m: Mutation): Slice
    requires !m.Propose?
  {
    match m
    case PutShared(_, _, value) => Held(Some(value))
    case PutInterface(_, value) => Held(Some(value))
    case ReplaceProgram(_, program) => HeldProgram(Some(program))
    case ReplaceRequirements(_, requirements) => HeldRequirements(requirements)
    case PutSubscription(_, _, value) => Held(Some(value))
    case PutOutbox(_, _, value) => Held(Some(value))
    case PutObligation(_, obligation) => Held(Some(obligation.text))
    case DeleteTopLevel(symbol) => if symbol.Operation? then Declared(false) else Held(None)
  }

  lemma MutationTakes(state: State, m: Mutation)
    requires !m.Propose? && Apply(state, m).1 == []
    ensures SliceOf(Apply(state, m).0, WriteTarget(m)) == Brought(m)
  {
    hide Staged, Proposing;
    match m
    case PutInterface(operation, value) =>
      if operation in state.operations { StagedKeeps(state.operations[operation].(interface := value)); }
    case ReplaceProgram(operation, program) => StagedKeeps(state.operations[operation].(program := Some(program)));
    case ReplaceRequirements(operation, requirements) =>
      StagedKeeps(state.operations[operation].(requirements := requirements));
    case DeleteTopLevel(symbol) =>
      if symbol.SubscriptionRuntime? {
        InnerFrame(state.subscriptions, symbol.operation, symbol.input, 0, symbol.operation, symbol.input);
      }
      if symbol.OutboxRuntime? {
        InnerFrame(state.outboxes, symbol.operation, symbol.input, 0, symbol.operation, symbol.input);
      }
    case _ =>
  }

  /** The symbols that can be deleted; an operation's own slices go with it. */
  predicate Deletable(symbol: Symbol) {
    symbol.Shared? || symbol.Operation? || symbol.SubscriptionRuntime? || symbol.OutboxRuntime? ||
    symbol.PromptObligation?
  }

  predicate There(slice: Slice) {
    slice == Declared(true) || (slice.Held? && slice.content.Some?)
  }

  /** Whether a submission names what there is: the obligation it answers, and the list it lands in. */
  predicate Submittable(draft: Draft, obligations: map<Id, Obligation>, submission: Submission) {
    && (submission.origin.ExplicitPrompt? ==> submission.origin.obligation in obligations)
    && ListIn(draft, FamilyOf(submission.requirement), TransactionOf(submission.requirement)).Some?
  }

  /** Whether a workspace has what a mutation needs of it. */
  ghost predicate Meets(state: State, m: Mutation) {
    match m
    case ReplaceProgram(operation, _) => There(SliceOf(state, Operation(operation)))
    case ReplaceRequirements(operation, _) => There(SliceOf(state, Operation(operation)))
    case Propose(operation, proposals) =>
      && There(SliceOf(state, Operation(operation)))
      && forall p :: p in proposals ==> Submittable(state.operations[operation], state.obligations, p)
    case DeleteTopLevel(symbol) => Deletable(symbol) && There(SliceOf(state, symbol))
    case _ => true
  }

  /** A mutation raises nothing exactly where the workspace before has what it needs. */
  lemma MutationClean(state: State, m: Mutation)
    ensures Apply(state, m).1 == [] <==> Meets(state, m)
  {
    hide Staged, PutInner, DropInner, BookedAll, Submittable;
    if m.Propose? && m.operation in state.operations {
      BatchClean(Books(state.operations[m.operation], state.obligations, state.proposals, []), state.policy,
        m.operation, m.proposals);
    }
  }

  /** What is raised otherwise, and that every slice then stays as it was. */
  lemma MutationComplains(state: State, m: Mutation, s: Symbol)
    requires !Meets(state, m) && (m.Propose? ==> m.operation !in state.operations)
    ensures Apply(state, m).1 ==
            [if !m.DeleteTopLevel? then Undeclared(Operation(m.operation))
             else if Deletable(m.symbol) then Undeclared(m.symbol) else NotTopLevel(m.symbol)]
    ensures SliceOf(Apply(state, m).0, s) == SliceOf(state, s)
  {
    hide Staged, PutInner;
    if m.DeleteTopLevel? { MissingKeeps(state, m.symbol, s); }
  }

  lemma MissingKeeps(state: State, symbol: Symbol, s: Symbol)
    requires !There(SliceOf(state, symbol)) || !Deletable(symbol)
    ensures SliceOf(Deleting(state, symbol).0, s) == SliceOf(state, s)
  {
    if symbol.SubscriptionRuntime? && s.SubscriptionRuntime? {
      InnerFrame(state.subscriptions, symbol.operation, symbol.input, 0, s.operation, s.input);
    }
    if symbol.OutboxRuntime? && s.OutboxRuntime? {
      InnerFrame(state.outboxes, symbol.operation, symbol.input, 0, s.operation, s.input);
    }
    hide DropInner, InnerAt;
  }

  /** Nothing is raised by a batch exactly when every submission names what there was before it. */
  lemma {:induction false} BatchClean(books: Books, policy: Policy, operation: Id, submissions: seq<Submission>)
    ensures books.diagnostics == [] ==>
              (BookedAll(books, policy, operation, submissions).diagnostics == [] <==>
               forall p :: p in submissions ==> Submittable(books.draft, books.obligations, p))
    decreases |submissions|
  {
    if submissions != [] {
      var front, last := submissions[..|submissions| - 1], submissions[|submissions| - 1];
      assert submissions == front + [last];
      BatchClean(books, policy, operation, front);
      BatchHolds(books, policy, operation, front);
      BatchRecords(books, policy, operation, front);
      var middle := BookedAll(books, policy, operation, front);
      BookedClean(middle, policy, operation, last);
      SameSubmittable(books, middle, operation, last);
      hide Booked, Submittable, Batch, AllKept, Recorded, Discharged;
    }
  }

  lemma BookedClean(books: Books, policy: Policy, operation: Id, submission: Submission)
    ensures Booked(books, policy, operation, submission).diagnostics == books.diagnostics <==>
            Submittable(books.draft, books.obligations, submission)
    ensures books.diagnostics <= Booked(books, policy, operation, submission).diagnostics
  {
    hide ListIn, Landed, MapIn;
  }

  lemma SameSubmittable(books: Books, after: Books, operation: Id, submission: Submission)
    requires Batch(books, after, operation) && AllKept(books.obligations, after.obligations)
    ensures Submittable(books.draft, books.obligations, submission) <==>
            Submittable(after.draft, after.obligations, submission)
  {
    var f, t := FamilyOf(submission.requirement), TransactionOf(submission.requirement);
    assert ListIn(books.draft, f, t).Some? <==> ListIn(after.draft, f, t).Some?;
    hide ListIn, Kept, OncePerAdoption, Apt, New;
  }

  /** A patch raises nothing exactly when each of its mutations meets what it needs in what those before it left. */
  lemma {:induction false} PatchClean(state: State, patch: seq<Mutation>)
    ensures ApplyAll(state, patch).1 == [] <==>
            forall k :: 0 <= k < |patch| ==> Meets(ApplyAll(state, patch[..k]).0, patch[k])
    decreases |patch|
  {
    hide Apply, Meets;
    if patch != [] {
      var n := |patch| - 1;
      PatchClean(state, patch[..n]);
      MutationClean(ApplyAll(state, patch[..n]).0, patch[n]);
      forall k | 0 <= k < n ensures patch[..n][..k] == patch[..k] && patch[..n][k] == patch[k] {}
    }
  }

  /**
   Proposing for a declared operation adds to the record just what the batch comes to, every record as the
   policy has it, and an explicit prompt's discharged in the obligations left.
   */
  lemma ProposalsRecorded(state: State, operation: Id, proposals: seq<Submission>)
    requires operation in state.operations
    ensures var (after, raised) := Apply(state, Propose(operation, proposals));
            && state.proposals <= after.proposals
            && |after.proposals| + |raised| == |state.proposals| + |proposals|
            && (forall p :: p in after.proposals[|state.proposals|..] ==>
                  Recorded(state.policy, operation, after.obligations, p))
            && (forall id :: id in state.obligations && !Prompted(proposals, id) ==>
                  id in after.obligations && after.obligations[id] == state.obligations[id])
            && after.obligations.Keys == state.obligations.Keys
  {
    BatchRecords(Books(state.operations[operation], state.obligations, state.proposals, []), state.policy,
      operation, proposals);
    hide Staged, BookedAll, Recorded, Batch, Kept, Prompted;
  }

  /** Whether every operation is signed off, or its stage tells what it holds. */
  ghost predicate WellStaged(state: State) {
    forall id :: id in state.operations ==>
      state.operations[id].stage == ReadyForAssembly || StageTells(state.operations[id])
  }

  /** Whatever a patch does, stages go on telling what the drafts hold, and no sign-off is taken back. */
  lemma {:induction false} PatchStages(state: State, patch: seq<Mutation>)
    requires WellStaged(state)
    ensures WellStaged(ApplyAll(state, patch).0)
    ensures forall id :: id in state.operations && state.operations[id].stage == ReadyForAssembly &&
                         DeleteTopLevel(Operation(id)) !in patch ==>
              id in ApplyAll(state, patch).0.operations &&
              ApplyAll(state, patch).0.operations[id].stage == ReadyForAssembly
    decreases |patch|
  {
    hide Apply, StageTells;
    if patch != [] {
      var front, m := patch[..|patch| - 1], patch[|patch| - 1];
      assert patch == front + [m];
      PatchStages(state, front);
      MutationStages(ApplyAll(state, front).0, m);
      hide WellStaged;
    }
  }

  lemma MutationStages(state: State, m: Mutation)
    requires WellStaged(state)
    ensures WellStaged(Apply(state, m).0)
    ensures forall id :: id in state.operations && state.operations[id].stage == ReadyForAssembly &&
                         m != DeleteTopLevel(Operation(id)) ==>
              id in Apply(state, m).0.operations && Apply(state, m).0.operations[id].stage == ReadyForAssembly
  {
    hide Staged, PutInner, DropInner, InnerAt, BookedAll, StageTells;
    match m
    case PutInterface(operation, value) =>
      UndraftedTells(value);
      if operation in state.operations { StagedTells(state.operations[operation].(interface := value)); }
    case ReplaceProgram(operation, program) =>
      if operation in state.operations { StagedTells(state.operations[operation].(program := Some(program))); }
    case ReplaceRequirements(operation, requirements) =>
      if operation in state.operations { StagedTells(state.operations[operation].(requirements := requirements)); }
    case Propose(operation, proposals) =>
      if operation in state.operations {
        var books := Books(state.operations[operation], state.obligations, state.proposals, []);
        BatchStage(books, state.policy, operation, proposals);
        StagedTells(BookedAll(books, state.policy, operation, proposals).draft);
      }
    case _ =>
  }

  lemma UndraftedTells(interface: Content)
    ensures StageTells(Undrafted(interface))
  {
  }

  lemma {:induction false} BatchStage(books: Books, policy: Policy, operation: Id, submissions: seq<Submission>)
    ensures BookedAll(books, policy, operation, submissions).draft.stage == books.draft.stage
    decreases |submissions|
  {
    if submissions != [] { BatchStage(books, policy, operation, submissions[..|submissions| - 1]); }
  }

  /** After a patch that raises nothing, each slice addressed holds what the last mutation to name it brought. */
  lemma {:induction false} PatchTakes(state: State, patch: seq<Mutation>, k: nat)
    requires k < |patch| && !patch[k].Propose? && ApplyAll(state, patch).1 == []
    requires forall j :: k < j < |patch| ==> !Covered(ConflictFootprint(patch[j]), WriteTarget(patch[k]))
    ensures SliceOf(ApplyAll(state, patch).0, WriteTarget(patch[k])) == Brought(patch[k])
    decreases |patch|
  {
    var n := |patch| - 1;
    var middle := ApplyAll(state, patch[..n]).0;
    hide Apply, Covered, SliceOf, Brought, ConflictFootprint;
    if k == n {
      MutationTakes(middle, patch[n]);
    } else {
      PatchTakes(state, patch[..n], k);
      MutationFrame(middle, patch[n], WriteTarget(patch[k]));
    }
  }

  lemma StagedLists(draft: Draft, f: R.Family, t: Option<Id>)
    ensures ListIn(Staged(draft), f, t) == ListIn(draft, f, t)
  {
    StagedKeeps(draft);
    hide Staged;
  }

  /** Whether a mutation replaces, or takes away, the list a reference names a place in. */
  predicate Replaces(m: Mutation, reference: Ref) {
    || m == DeleteTopLevel(Operation(reference.operation))
    || (m.ReplaceRequirements? && m.operation == reference.operation && reference.transaction.None?)
    || (m.ReplaceProgram? && m.operation == reference.operation && reference.transaction.Some?)
  }

  /** The content at a place of a list, if it reaches there. */
  function At(list: Option<seq<Content>>, index: nat): Option<Content> {
    if list.Some? && index < |list.value| then Some(list.value[index]) else None
  }

  /** What a replacement brings to the place a reference names. */
  function BroughtAt(m: Mutation, reference: Ref): Option<Content>
    requires Replaces(m, reference)
  {
    if m.DeleteTopLevel? then None else
    var draft := if m.ReplaceProgram? then Draft(0, Some(m.program), OperationRequirements([], []), Planned)
                 else Draft(0, None, m.requirements, Planned);
    At(ListIn(draft, reference.family, reference.transaction), reference.index)
  }

  /**
   Whether a mutation leaves a reference to some content naming it: it replaces no list, or brings it to that place.
   */
  predicate Keeps(m: Mutation, reference: Ref, content: Content) {
    Replaces(m, reference) ==> BroughtAt(m, reference) == Some(content)
  }

  /** What a reference that names something names after a mutation: the same, or what a replacement brings there. */
  lemma ReferenceAfter(state: State, m: Mutation, reference: Ref)
    requires Resolve(state.operations, reference).Some?
    ensures Resolve(Apply(state, m).0.operations, reference) ==
            if Replaces(m, reference) then BroughtAt(m, reference) else Resolve(state.operations, reference)
  {
    hide Staged, PutInner, DropInner, InnerAt, Proposing, ListIn, BroughtAt;
    if m.Propose? {
      if m.operation == reference.operation {
        ReferenceProposed(state, m.operation, m.proposals, reference);
      } else {
        ProposedElsewhere(state, m.operation, m.proposals, reference.operation);
      }
    } else if m == DeleteTopLevel(Operation(reference.operation)) {
      DeleteBrings(m, reference);
    } else if Rewrites(m) && m.operation == reference.operation {
      var draft := state.operations[reference.operation];
      ResolvedSuits(state, reference);
      StagedLists(Rewritten(draft, m), reference.family, reference.transaction);
      RewrittenNames(draft, m, reference);
      hide Rewritten;
    }
  }

  /** Whether a reference names a transaction just where its family is one a transaction declares. */
  predicate Suited(r: Ref) {
    match r.family
    case Serializability => r.transaction.Some?
    case Ordering => r.transaction.Some?
    case Idempotency => r.transaction.None?
    case Recoverability => r.transaction.None?
    case ResultReplay => false
  }

  predicate Rewrites(m: Mutation) {
    m.PutInterface? || m.ReplaceProgram? || m.ReplaceRequirements?
  }

  /** The draft with one of its slices replaced. */
  function Rewritten(draft: Draft, m: Mutation): Draft
    requires Rewrites(m)
  {
    match m
    case PutInterface(_, value) => draft.(interface := value)
    case ReplaceProgram(_, program) => draft.(program := Some(program))
    case ReplaceRequirements(_, requirements) => draft.(requirements := requirements)
  }

  lemma RewrittenNames(draft: Draft, m: Mutation, r: Ref)
    requires Rewrites(m) && m.operation == r.operation && Suited(r)
    ensures At(ListIn(Rewritten(draft, m), r.family, r.transaction), r.index) ==
            if Replaces(m, r) then BroughtAt(m, r) else At(ListIn(draft, r.family, r.transaction), r.index)
  {
    hide Find;
  }

  lemma DeleteBrings(m: Mutation, reference: Ref)
    requires m == DeleteTopLevel(Operation(reference.operation))
    ensures BroughtAt(m, reference) == None
  {
  }

  lemma ReferenceProposed(state: State, operation: Id, proposals: seq<Submission>, reference: Ref)
    requires Resolve(state.operations, reference).Some? && reference.operation == operation
    ensures Resolve(Proposing(state, operation, proposals).0.operations, reference) ==
            Resolve(state.operations, reference)
  {
    hide Staged, BookedAll, ListIn;
    var draft := state.operations[operation];
    var f, t := reference.family, reference.transaction;
    var books := Books(draft, state.obligations, state.proposals, []);
    BatchHolds(books, state.policy, operation, proposals);
    var after := BookedAll(books, state.policy, operation, proposals);
    StagedLists(after.draft, f, t);
    assert ListIn(draft, f, t).value <= ListIn(after.draft, f, t).value;
  }

  lemma ProposedElsewhere(state: State, operation: Id, proposals: seq<Submission>, other: Id)
    requires other != operation
    ensures Get(Proposing(state, operation, proposals).0.operations, other) == Get(state.operations, other)
  {
    hide Staged, BookedAll;
  }

  /**
   A reference goes on naming its requirement exactly when the mutation keeps it; else it dangles or names another.
   */
  lemma ReferenceStands(state: State, m: Mutation, reference: Ref, content: Content)
    requires Resolve(state.operations, reference) == Some(content)
    ensures Resolve(Apply(state, m).0.operations, reference) == Some(content) <==> Keeps(m, reference, content)
  {
    ReferenceAfter(state, m, reference);
    hide Apply, Resolve, BroughtAt;
  }

  /** Whether a reference names some content before a patch and after each of its mutations. */
  ghost predicate NamesThroughout(state: State, patch: seq<Mutation>, reference: Ref, content: Content) {
    forall k :: 0 <= k <= |patch| ==> NamesAfter(state, patch, k, reference, content)
  }

  predicate NamesAfter(state: State, patch: seq<Mutation>, k: nat, reference: Ref, content: Content)
    requires k <= |patch|
  {
    Resolve(ApplyAll(state, patch[..k]).0.operations, reference) == Some(content)
  }

  /** Through a whole patch it does so, mutation by mutation, exactly when every mutation keeps it. */
  lemma {:induction false} ReferenceStandsThrough(state: State, patch: seq<Mutation>, reference: Ref, content: Content)
    requires Resolve(state.operations, reference) == Some(content)
    ensures NamesThroughout(state, patch, reference, content) <==>
            forall m :: m in patch ==> Keeps(m, reference, content)
    decreases |patch|
  {
    hide Apply, Resolve, Keeps, NamesThroughout;
    if patch == [] {
      ThroughNothing(state, reference, content);
    } else {
      var n := |patch| - 1;
      var front, m := patch[..n], patch[n];
      assert patch == front + [m];
      ReferenceStandsThrough(state, front, reference, content);
      ThroughFront(state, patch, front, reference, content);
      var middle := ApplyAll(state, front).0;
      if Resolve(middle.operations, reference) == Some(content) { ReferenceStands(middle, m, reference, content); }
    }
  }

  lemma ThroughNothing(state: State, reference: Ref, content: Content)
    requires Resolve(state.operations, reference) == Some(content)
    ensures NamesThroughout(state, [], reference, content)
  {
    hide Resolve;
  }

  lemma ThroughFront(state: State, patch: seq<Mutation>, front: seq<Mutation>, reference: Ref, content: Content)
    requires patch != [] && front == patch[..|patch| - 1]
    ensures NamesThroughout(state, patch, reference, content) <==>
            NamesThroughout(state, front, reference, content) &&
            Resolve(ApplyAll(state, patch).0.operations, reference) == Some(content)
    ensures NamesThroughout(state, front, reference, content) ==>
              Resolve(ApplyAll(state, front).0.operations, reference) == Some(content)
  {
    hide Resolve, ApplyAll;
    assert patch[..|patch|] == patch && front[..|front|] == front;
    forall k | 0 <= k <= |front|
      ensures NamesAfter(state, patch, k, reference, content) == NamesAfter(state, front, k, reference, content) {
      assert patch[..k] == front[..k];
    }
    assert NamesAfter(state, patch, |patch|, reference, content) ==
      (Resolve(ApplyAll(state, patch).0.operations, reference) == Some(content));
    assert NamesAfter(state, front, |front|, reference, content) ==
      (Resolve(ApplyAll(state, front).0.operations, reference) == Some(content));
    hide NamesAfter;
  }

  /** What a mutation that raises nothing leaves a reference naming, whether or not it named something before. */
  lemma CleanAfter(state: State, m: Mutation, reference: Ref)
    requires Suited(reference) && !m.Propose? && Apply(state, m).1 == []
    ensures Resolve(Apply(state, m).0.operations, reference) ==
            if Replaces(m, reference) then BroughtAt(m, reference) else Resolve(state.operations, reference)
  {
    hide Staged, PutInner, DropInner, InnerAt, ListIn, BroughtAt;
    if m == DeleteTopLevel(Operation(reference.operation)) {
      DeleteBrings(m, reference);
    } else if Rewrites(m) && m.operation == reference.operation {
      if m.operation in state.operations {
        var draft := state.operations[m.operation];
        StagedLists(Rewritten(draft, m), reference.family, reference.transaction);
        RewrittenNames(draft, m, reference);
        hide Rewritten;
      } else {
        NothingDeclared(m.value, reference);
      }
    }
  }

  lemma NothingDeclared(interface: Content, reference: Ref)
    ensures At(ListIn(Undrafted(interface), reference.family, reference.transaction), reference.index) == None
  {
  }

  /** What the last replacement in a patch brings to a reference's place; without any, what it named before. */
  function LastAt(patch: seq<Mutation>, reference: Ref, content: Content): Option<Content> {
    if patch == [] then Some(content) else
    var m := patch[|patch| - 1];
    if Replaces(m, reference) then BroughtAt(m, reference) else LastAt(patch[..|patch| - 1], reference, content)
  }

  /** Whether something is proposed to a reference's operation after the last replacement, if there is any. */
  predicate ProposedSince(patch: seq<Mutation>, reference: Ref) {
    patch != [] &&
    var m := patch[|patch| - 1];
    !Replaces(m, reference) &&
    ((m.Propose? && m.operation == reference.operation) || ProposedSince(patch[..|patch| - 1], reference))
  }

  /**
   A patch that raises nothing leaves a reference naming what its last replacement brought to the place,
   and naming nothing where it brought nothing, unless a later proposal may have been adopted into it.
   */
  lemma {:induction false} ReferenceAfterPatch(state: State, patch: seq<Mutation>, reference: Ref, content: Content)
    requires Resolve(state.operations, reference) == Some(content) && ApplyAll(state, patch).1 == []
    requires LastAt(patch, reference, content).Some? || !ProposedSince(patch, reference)
    ensures Resolve(ApplyAll(state, patch).0.operations, reference) == LastAt(patch, reference, content)
    decreases |patch|
  {
    ResolvedSuits(state, reference);
    hide Apply, Resolve, Replaces, BroughtAt, Suited;
    if patch != [] {
      var n := |patch| - 1;
      var m := patch[n];
      var middle := ApplyAll(state, patch[..n]).0;
      assert patch == patch[..n] + [m];
      ProposingReplacesNothing(m, reference);
      if !Replaces(m, reference) { ReferenceAfterPatch(state, patch[..n], reference, content); }
      if !m.Propose? {
        CleanAfter(middle, m, reference);
      } else if m.operation == reference.operation {
        ReferenceAfter(middle, m, reference);
      } else {
        ResolveElsewhere(middle, m, reference);
      }
    }
  }

  lemma ResolveElsewhere(state: State, m: Mutation, reference: Ref)
    requires m.Propose? && m.operation != reference.operation
    ensures Resolve(Apply(state, m).0.operations, reference) == Resolve(state.operations, reference)
  {
    hide Proposing, ListIn;
    ProposedElsewhere(state, m.operation, m.proposals, reference.operation);
  }

  lemma ResolvedSuits(state: State, reference: Ref)
    ensures Resolve(state.operations, reference).Some? ==> Suited(reference)
  {
  }

  lemma ProposingReplacesNothing(m: Mutation, reference: Ref)
    ensures m.Propose? ==> !Replaces(m, reference)
  {
  }

  /**
   An adopted reference in the record that comes to name nothing: its operation's requirements are replaced by none.
   */
  lemma ReferenceDangles(state: State, operation: Id, content: Content)
    requires operation in state.operations && state.operations[operation].requirements.idempotency == [content]
    ensures var m := ReplaceRequirements(operation, OperationRequirements([], []));
            var reference := Ref(operation, R.Idempotency, None, 0);
            Apply(state, m).1 == [] && !Keeps(m, reference, content) &&
            Resolve(state.operations, reference) == Some(content) &&
            Resolve(Apply(state, m).0.operations, reference) == None
  {
    ReferenceAfter(state, ReplaceRequirements(operation, OperationRequirements([], [])),
      Ref(operation, R.Idempotency, None, 0));
  }

  /** A mutation that does not name an obligation keeps its text, its verdict, and every reference it has. */
  lemma MutationKeeps(state: State, m: Mutation, id: Id)
    requires id in state.obligations && !Covered(ConflictFootprint(m), PromptObligation(id))
    ensures id in Apply(state, m).0.obligations && Kept(state.obligations[id], Apply(state, m).0.obligations[id])
  {
    NotCoveredBy(ConflictFootprint(m), PromptObligation(id), 0);
    hide Staged, PutInner, DropInner, InnerAt, BookedAll, Batch, Recorded, Once;
    if m.Propose? && m.operation in state.operations {
      BatchRecords(Books(state.operations[m.operation], state.obligations, state.proposals, []), state.policy,
        m.operation, m.proposals);
    }
  }

  /**
   The statuses a patch may write outside its footprint: an obligation it does not name keeps its text,
   its verdict and its references, in order, whoever recorded them; references are only added, each once.
   */
  lemma {:induction false} PatchKeepsObligations(state: State, patch: seq<Mutation>, id: Id)
    requires id in state.obligations && !Covered(Footprints(patch), PromptObligation(id))
    ensures var after := ApplyAll(state, patch).0;
            id in after.obligations && Kept(state.obligations[id], after.obligations[id])
    decreases |patch|
  {
    hide Apply, Covered, Kept, ConflictFootprint;
    if patch == [] {
      KeptSelf(state.obligations[id]);
    } else {
      var front, m := patch[..|patch| - 1], patch[|patch| - 1];
      CoveredBoth(Footprints(front), ConflictFootprint(m), PromptObligation(id));
      PatchKeepsObligations(state, front, id);
      var middle := ApplyAll(state, front).0;
      MutationKeeps(middle, m, id);
      KeptThen(state.obligations[id], middle.obligations[id], Apply(middle, m).0.obligations[id]);
    }
  }
}
