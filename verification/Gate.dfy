/**
 The serializable commit gate: what a task has observed, what a commit is judged by, and which
 observations a change of head makes stale.

 The symbols derived from a workspace's slices, query answers, draft checks and write scopes are
 parameters. An answer is what a query's canonical result hashes to.
 */
module Gate {
  import opened Common
  import opened SortDedup
  import opened Program
  import opened Proposals
  import opened Patch
  import opened Slices

  datatype Query = GraphQuery(query: nat) | Search(spec: nat)

  type Scope = nat

  datatype Rules = Rules(
    derived: State -> map<Id, nat>,
    answer: (State, Query) -> nat,
    check: (State, seq<Mutation>) -> seq<Diagnostic>,
    permits: (Scope, Mutation) -> bool,
    collect: seq<Mutation> -> seq<Symbol>,
    symbolLess: (Symbol, Symbol) -> bool,
    queryLess: (Query, Query) -> bool)

  ghost predicate Lawful(rules: Rules) {
    StrictOrder(rules.symbolLess) && StrictOrder(rules.queryLess)
  }

  /** A symbol's place in an order: its kind's, and then its ids'. */
  function PlaceOf(s: Symbol): (nat, nat, nat) {
    match s
    case Shared(table, id) => (0, TablePlace(table), id)
    case Operation(id) => (1, id, 0)
    case OperationInterface(id) => (2, id, 0)
    case OperationProgram(id) => (3, id, 0)
    case OperationRequirementsOf(id) => (4, id, 0)
    case SubscriptionRuntime(operation, input) => (5, operation, input)
    case OutboxRuntime(operation, input) => (6, operation, input)
    case PromptObligation(id) => (7, id, 0)
    case Derived(id) => (8, id, 0)
  }

  function TablePlace(table: Table): nat {
    match table
    case Services => 0
    case Schemas => 1
    case DataModels => 2
    case Topics => 3
    case StateMachines => 4
    case TopicRuntimes => 5
    case ExecutionPools => 6
    case Routers => 7
    case StorageLayouts => 8
  }

  predicate SymbolLess(a: Symbol, b: Symbol) {
    var p, q := PlaceOf(a), PlaceOf(b);
    p.0 < q.0 || (p.0 == q.0 && (p.1 < q.1 || (p.1 == q.1 && p.2 < q.2)))
  }

  predicate QueryLess(a: Query, b: Query) {
    match (a, b)
    case (GraphQuery(p), GraphQuery(q)) => p < q
    case (GraphQuery(_), Search(_)) => true
    case (Search(p), Search(q)) => p < q
    case (Search(_), GraphQuery(_)) => false
  }

  /** There are such orders, whatever the rest of the rules. */
  lemma OrdersExist(rules: Rules)
    ensures Lawful(rules.(symbolLess := SymbolLess, queryLess := QueryLess))
  {
  }

  datatype Snapshot = Snapshot(revision: nat, workspace: State)

  /** Everything a task has observed, by fingerprint. */
  datatype ReadSet = ReadSet(symbols: map<Symbol, Fingerprint>, queries: map<Query, nat>)

  datatype TaskState =
    | Planned | Running | Invalidated | Committing | Committed
    | DependencyRequested | Unresolved | Failed | Cancelled | Completed

  datatype Cause = RemovedSymbol(symbol: Symbol) | ChangedSymbol(symbol: Symbol) | ChangedQuery(query: Query)
      | ChangedSearch(query: Query)

  datatype Note = Note(causes: seq<Cause>, rejected: Option<seq<Mutation>>)

  datatype Task = Task(token: Id, interactive: bool, scope: Scope, pinned: Snapshot, state: TaskState,
      readSet: ReadSet, note: Option<Note>)

  datatype Request = Request(task: Id, base: nat, patch: seq<Mutation>, nonce: nat)

  datatype Rejection =
    | TaskUnknown
    | TaskNotRunning(state: TaskState)
    | TaskInvalidated
    | BaseRevisionMismatch
    | WriteScopeViolation(symbol: Symbol)
    | ReadConflict(symbol: Symbol, current: Option<Fingerprint>)
    | PhantomConflict(query: Query)
    | SearchConflict(query: Query)
    | WriteConflict(symbol: Symbol)
    | UnobservedDependency(symbol: Symbol)
    | DraftValidationFailed

  /** Whether a rejection means the task's context is stale. */
  predicate IsStaleContext(rejection: Rejection) {
    rejection.TaskInvalidated? || rejection.BaseRevisionMismatch? || rejection.ReadConflict? ||
      rejection.WriteConflict? ||
    rejection.PhantomConflict? || rejection.SearchConflict?
  }

  datatype Verdict = Refused(rejection: Rejection) | Passed(workspace: State)

  /** The symbol graph's fingerprints, by symbol. */
  function GraphOf(rules: Rules, w: State): map<Symbol, Fingerprint> {
    Nodes(w, rules.derived(w))
  }

  function PrintOf(rules: Rules, w: State, s: Symbol): Option<Fingerprint> {
    Get(GraphOf(rules, w), s)
  }

  predicate SymbolHolds(rules: Rules, readSet: ReadSet, w: State, s: Symbol) {
    s in readSet.symbols ==> PrintOf(rules, w, s) == Some(readSet.symbols[s])
  }

  predicate QueryHolds(rules: Rules, readSet: ReadSet, w: State, q: Query) {
    q in readSet.queries ==> rules.answer(w, q) == readSet.queries[q]
  }

  ghost predicate SymbolsHold(rules: Rules, readSet: ReadSet, w: State) {
    forall s :: s in readSet.symbols ==> SymbolHolds(rules, readSet, w, s)
  }

  ghost predicate QueriesHold(rules: Rules, readSet: ReadSet, w: State) {
    forall q :: q in readSet.queries ==> QueryHolds(rules, readSet, w, q)
  }

  ghost predicate ReadsHold(rules: Rules, readSet: ReadSet, w: State) {
    SymbolsHold(rules, readSet, w) && QueriesHold(rules, readSet, w)
  }

  ghost predicate TargetsHold(rules: Rules, patch: seq<Mutation>, base: State, w: State) {
    forall t :: t in Footprints(patch) ==> PrintOf(rules, base, t) == PrintOf(rules, w, t)
  }

  /** Whether a reference was read: itself, or for an operation its interface. */
  predicate Observed(readSet: ReadSet, reference: Symbol) {
    reference in readSet.symbols || (reference.Operation? && OperationInterface(reference.id) in readSet.symbols)
  }

  ghost predicate ReferencesRead(rules: Rules, readSet: ReadSet, patch: seq<Mutation>) {
    forall r :: r in rules.collect(patch) && !WrittenHere(Footprints(patch), r) ==> Observed(readSet, r)
  }

  predicate InScope(rules: Rules, scope: Scope, patch: seq<Mutation>) {
    forall m :: m in patch ==> rules.permits(scope, m)
  }

  /** The workspace a patch makes of another, unless it raises a diagnostic. */
  function Applied(rules: Rules, w: State, patch: seq<Mutation>): Option<State> {
    var (after, raised) := ApplyAll(w, patch);
    if raised == [] && rules.check(after, patch) == [] then Some(after) else None
  }

  /** What the gate accepts of a task, over a head. */
  ghost predicate Accepts(rules: Rules, task: Task, request: Request, head: Snapshot) {
    && request.base == task.pinned.revision
    && InScope(rules, task.scope, request.patch)
    && ReadsHold(rules, task.readSet, head.workspace)
    && TargetsHold(rules, request.patch, task.pinned.workspace, head.workspace)
    && ReferencesRead(rules, task.readSet, request.patch)
    && Applied(rules, head.workspace, request.patch).Some?
  }

  /** What a refusal tells: the first check that fails, and what fails it. */
  ghost predicate Explains(rules: Rules, task: Task, request: Request, head: Snapshot, rejection: Rejection) {
    var w := head.workspace;
    if request.base != task.pinned.revision then rejection == BaseRevisionMismatch
    else if !InScope(rules, task.scope, request.patch) then
      rejection.WriteScopeViolation? &&
      exists m :: m in request.patch && !rules.permits(task.scope, m) && rejection.symbol == WriteTarget(m)
    else if !SymbolsHold(rules, task.readSet, w) then
      rejection.ReadConflict? && rejection.symbol in task.readSet.symbols &&
      !SymbolHolds(rules, task.readSet, w, rejection.symbol) &&
      rejection.current == PrintOf(rules, w, rejection.symbol)
    else if !QueriesHold(rules, task.readSet, w) then
      (rejection.PhantomConflict? || rejection.SearchConflict?) &&
      (rejection.PhantomConflict? <==> rejection.query.GraphQuery?) &&
      rejection.query in task.readSet.queries && !QueryHolds(rules, task.readSet, w, rejection.query)
    else if !TargetsHold(rules, request.patch, task.pinned.workspace, w) then
      rejection.WriteConflict? && rejection.symbol in Footprints(request.patch) &&
      PrintOf(rules, task.pinned.workspace, rejection.symbol) != PrintOf(rules, w, rejection.symbol)
    else if !ReferencesRead(rules, task.readSet, request.patch) then
      rejection.UnobservedDependency? && rejection.symbol in rules.collect(request.patch) &&
      !Observed(task.readSet, rejection.symbol)
    else rejection == DraftValidationFailed
  }

  /** The first observation, in order, that no longer holds. */
  method CheckReads(rules: Rules, readSet: ReadSet, w: State) returns (refused: Option<Rejection>)
    requires Lawful(rules)
    ensures refused.None? <==> ReadsHold(rules, readSet, w)
    ensures !SymbolsHold(rules, readSet, w) ==>
              refused.Some? && refused.value.ReadConflict? && refused.value.symbol in readSet.symbols &&
              !SymbolHolds(rules, readSet, w, refused.value.symbol) &&
              refused.value.current == PrintOf(rules, w, refused.value.symbol)
    ensures SymbolsHold(rules, readSet, w) && !QueriesHold(rules, readSet, w) ==>
              refused.Some? && (refused.value.PhantomConflict? || refused.value.SearchConflict?) &&
              (refused.value.PhantomConflict? <==> refused.value.query.GraphQuery?) &&
              refused.value.query in readSet.queries && !QueryHolds(rules, readSet, w, refused.value.query)
  {
    hide SymbolHolds, QueryHolds, SymbolsHold, QueriesHold, Lawful;
    refused := CheckSymbols(rules, readSet, w);
    if refused.None? { refused := CheckQueries(rules, readSet, w); }
  }

  method CheckSymbols(rules: Rules, readSet: ReadSet, w: State) returns (refused: Option<Rejection>)
    requires Lawful(rules)
    ensures refused.None? <==> SymbolsHold(rules, readSet, w)
    ensures refused.Some? ==>
              refused.value.ReadConflict? && refused.value.symbol in readSet.symbols &&
              !SymbolHolds(rules, readSet, w, refused.value.symbol) &&
              refused.value.current == PrintOf(rules, w, refused.value.symbol)
  {
    LawfulOrders(rules);
    hide StrictOrder, Strict, Ordered, Lawful, Get;
    var symbols := Ordered(rules.symbolLess, readSet.symbols.Keys);
    for i := 0 to |symbols|
      invariant forall j :: 0 <= j < i ==> SymbolHolds(rules, readSet, w, symbols[j])
    {
      var s := symbols[i];
      assert s in symbols;
      if PrintOf(rules, w, s) != Some(readSet.symbols[s]) {
        return Some(ReadConflict(s, PrintOf(rules, w, s)));
      }
    }
    forall s | s in readSet.symbols ensures SymbolHolds(rules, readSet, w, s) { assert s in symbols; }
    refused := None;
  }

  method CheckQueries(rules: Rules, readSet: ReadSet, w: State) returns (refused: Option<Rejection>)
    requires Lawful(rules)
    ensures refused.None? <==> QueriesHold(rules, readSet, w)
    ensures refused.Some? ==>
              (refused.value.PhantomConflict? || refused.value.SearchConflict?) &&
              (refused.value.PhantomConflict? <==> refused.value.query.GraphQuery?) &&
              refused.value.query in readSet.queries && !QueryHolds(rules, readSet, w, refused.value.query)
  {
    LawfulOrders(rules);
    hide StrictOrder, Strict, Ordered, Lawful;
    var queries := Ordered(rules.queryLess, readSet.queries.Keys);
    for i := 0 to |queries|
      invariant forall j :: 0 <= j < i ==> QueryHolds(rules, readSet, w, queries[j])
    {
      var q := queries[i];
      assert q in queries;
      if rules.answer(w, q) != readSet.queries[q] {
        return Some(if q.GraphQuery? then PhantomConflict(q) else SearchConflict(q));
      }
    }
    forall q | q in readSet.queries ensures QueryHolds(rules, readSet, w, q) { assert q in queries; }
    refused := None;
  }

  method CheckScope(rules: Rules, scope: Scope, patch: seq<Mutation>) returns (refused: Option<Rejection>)
    ensures refused.None? <==> InScope(rules, scope, patch)
    ensures refused.Some? ==>
              refused.value.WriteScopeViolation? &&
              exists m :: m in patch && !rules.permits(scope, m) && refused.value.symbol == WriteTarget(m)
  {
    for i := 0 to |patch|
      invariant forall j :: 0 <= j < i ==> rules.permits(scope, patch[j])
    {
      if !rules.permits(scope, patch[i]) {
        assert patch[i] in patch;
        return Some(WriteScopeViolation(WriteTarget(patch[i])));
      }
    }
    refused := None;
  }

  method CheckTargets(rules: Rules, patch: seq<Mutation>, base: State, w: State) returns (refused: Option<Rejection>)
    requires Lawful(rules)
    ensures refused.None? <==> TargetsHold(rules, patch, base, w)
    ensures refused.Some? ==>
              refused.value.WriteConflict? && refused.value.symbol in Footprints(patch) &&
              PrintOf(rules, base, refused.value.symbol) != PrintOf(rules, w, refused.value.symbol)
  {
    TargetsCover(rules.symbolLess, patch, patch);
    var targets := WriteTargets(rules.symbolLess, patch);
    for i := 0 to |targets|
      invariant forall j :: 0 <= j < i ==> PrintOf(rules, base, targets[j]) == PrintOf(rules, w, targets[j])
    {
      assert targets[i] in targets;
      if PrintOf(rules, base, targets[i]) != PrintOf(rules, w, targets[i]) {
        return Some(WriteConflict(targets[i]));
      }
    }
    forall t | t in Footprints(patch) ensures PrintOf(rules, base, t) == PrintOf(rules, w, t) {
      assert t in targets;
    }
    refused := None;
  }

  method CheckReferences(rules: Rules, readSet: ReadSet, patch: seq<Mutation>) returns (refused: Option<Rejection>)
    requires Lawful(rules)
    ensures refused.None? <==> ReferencesRead(rules, readSet, patch)
    ensures refused.Some? ==>
              refused.value.UnobservedDependency? && refused.value.symbol in rules.collect(patch) &&
              !Observed(readSet, refused.value.symbol)
  {
    hide Observed, WrittenHere;
    var references := ExternalReferences(rules.symbolLess, patch, rules.collect(patch));
    for i := 0 to |references|
      invariant forall j :: 0 <= j < i ==> Observed(readSet, references[j])
    {
      assert references[i] in references;
      if !Observed(readSet, references[i]) {
        return Some(UnobservedDependency(references[i]));
      }
    }
    forall r | r in rules.collect(patch) && !WrittenHere(Footprints(patch), r) ensures Observed(readSet, r) {
      assert r in references;
    }
    refused := None;
  }

  /** What the gate may answer: it passes just what it accepts, with the workspace made, and explains the rest. */
  ghost predicate Answers(rules: Rules, task: Task, request: Request, head: Snapshot, verdict: Verdict) {
    && (verdict.Passed? <==> Accepts(rules, task, request, head))
    && (verdict.Passed? ==> Applied(rules, head.workspace, request.patch) == Some(verdict.workspace))
    && (verdict.Refused? ==> Explains(rules, task, request, head, verdict.rejection))
  }

  /** The gate: every check in order, and the candidate the patch makes of the head. */
  method Judge(rules: Rules, task: Task, request: Request, head: Snapshot) returns (verdict: Verdict)
    requires Lawful(rules)
    ensures Answers(rules, task, request, head, verdict)
  {
    hide InScope, SymbolsHold, QueriesHold, TargetsHold, ReferencesRead, SymbolHolds, QueryHolds, ApplyAll;
    if request.base != task.pinned.revision { return Refused(BaseRevisionMismatch); }
    var refused := CheckScope(rules, task.scope, request.patch);
    if refused.Some? { return Refused(refused.value); }
    refused := CheckReads(rules, task.readSet, head.workspace);
    if refused.Some? { return Refused(refused.value); }
    refused := CheckTargets(rules, request.patch, task.pinned.workspace, head.workspace);
    if refused.Some? { return Refused(refused.value); }
    refused := CheckReferences(rules, task.readSet, request.patch);
    if refused.Some? { return Refused(refused.value); }
    var candidate := new Candidate(head.workspace);
    var diagnostics := candidate.ApplyPatch(request.patch, rules.check);
    if diagnostics != [] { return Refused(DraftValidationFailed); }
    verdict := Passed(State(candidate.shared, candidate.operations, candidate.subscriptions, candidate.outboxes,
                            candidate.obligations, candidate.proposals, candidate.policy));
  }

  /** The symbols whose fingerprints differ between two workspaces, in order. */
  method ChangedSymbols(rules: Rules, head: State, candidate: State) returns (changed: seq<Symbol>)
    requires Lawful(rules)
    ensures Strict(rules.symbolLess, changed)
    ensures forall s :: s in changed <==> PrintOf(rules, head, s) != PrintOf(rules, candidate, s)
  {
    LawfulOrders(rules);
    hide StrictOrder, Lawful, Strict, Get, Ordered;
    var nodes := Ordered(rules.symbolLess, GraphOf(rules, candidate).Keys);
    changed := AddChanged(rules, nodes, head, candidate);
    ghost var kept := changed;
    nodes := Ordered(rules.symbolLess, GraphOf(rules, head).Keys);
    changed := AddRemoved(rules, nodes, candidate, changed);
    forall s ensures s in changed <==> PrintOf(rules, head, s) != PrintOf(rules, candidate, s) {
      Differs(rules, head, candidate, s);
    }
    CanonicalHolds(rules.symbolLess, changed);
    changed := Canonical(rules.symbolLess, changed);
  }

  method AddChanged(rules: Rules, nodes: seq<Symbol>, head: State, candidate: State) returns (changed: seq<Symbol>)
    ensures forall s :: s in changed <==> s in nodes && PrintOf(rules, head, s) != PrintOf(rules, candidate, s)
  {
    hide Get;
    changed := [];
    for i := 0 to |nodes|
      invariant forall s :: s in changed <==> s in nodes[..i] && PrintOf(rules, head, s) != PrintOf(rules, candidate, s)
    {
      assert nodes[..i + 1] == nodes[..i] + [nodes[i]];
      if PrintOf(rules, head, nodes[i]) != PrintOf(rules, candidate, nodes[i]) {
        changed := changed + [nodes[i]];
      }
    }
    assert nodes[..|nodes|] == nodes;
  }

  method AddRemoved(rules: Rules, nodes: seq<Symbol>, candidate: State, changed0: seq<Symbol>)
    returns (changed: seq<Symbol>)
    ensures forall s :: s in changed <==> s in changed0 || (s in nodes && s !in GraphOf(rules, candidate))
  {
    changed := changed0;
    for i := 0 to |nodes|
      invariant forall s :: s in changed <==> s in changed0 || (s in nodes[..i] && s !in GraphOf(rules, candidate))
    {
      assert nodes[..i + 1] == nodes[..i] + [nodes[i]];
      if nodes[i] !in GraphOf(rules, candidate) {
        changed := changed + [nodes[i]];
      }
    }
    assert nodes[..|nodes|] == nodes;
  }

  lemma Differs(rules: Rules, head: State, candidate: State, s: Symbol)
    ensures PrintOf(rules, head, s) != PrintOf(rules, candidate, s) <==>
            (s in GraphOf(rules, candidate) && PrintOf(rules, head, s) != PrintOf(rules, candidate, s)) ||
            (s in GraphOf(rules, head) && s !in GraphOf(rules, candidate))
  {
  }

  function SymbolCause(rules: Rules, readSet: ReadSet, changed: seq<Symbol>, w: State, s: Symbol): seq<Cause>
  {
    if s !in changed || s !in readSet.symbols then []
    else if PrintOf(rules, w, s).None? then [RemovedSymbol(s)]
    else if PrintOf(rules, w, s) != Some(readSet.symbols[s]) then [ChangedSymbol(s)]
    else []
  }

  function QueryCause(rules: Rules, readSet: ReadSet, w: State, q: Query): seq<Cause>
  {
    if q !in readSet.queries || rules.answer(w, q) == readSet.queries[q] then []
    else [if q.GraphQuery? then ChangedQuery(q) else ChangedSearch(q)]
  }

  function SymbolCauses(rules: Rules, readSet: ReadSet, changed: seq<Symbol>, w: State, list: seq<Symbol>): seq<Cause> {
    if list == [] then [] else
    SymbolCauses(rules, readSet, changed, w, list[..|list| - 1]) +
      SymbolCause(rules, readSet, changed, w, list[|list| - 1])
  }

  function QueryCauses(rules: Rules, readSet: ReadSet, w: State, list: seq<Query>): seq<Cause> {
    if list == [] then [] else
    QueryCauses(rules, readSet, w, list[..|list| - 1]) + QueryCause(rules, readSet, w, list[|list| - 1])
  }

  /** Why a read set is stale at a head, as far as the changed symbols and rerun queries tell. */
  function CausesOf(rules: Rules, readSet: ReadSet, changed: seq<Symbol>, w: State): seq<Cause>
    requires Lawful(rules)
  {
    SymbolCauses(rules, readSet, changed, w, Ordered(rules.symbolLess, readSet.symbols.Keys)) +
    QueryCauses(rules, readSet, w, Ordered(rules.queryLess, readSet.queries.Keys))
  }

  method StaleCauses(rules: Rules, readSet: ReadSet, changed: seq<Symbol>, w: State) returns (causes: seq<Cause>)
    requires Lawful(rules)
    ensures causes == CausesOf(rules, readSet, changed, w)
  {
    LawfulOrders(rules);
    hide Lawful, StrictOrder, Strict, SymbolCauses, QueryCauses, Ordered;
    var symbols := Ordered(rules.symbolLess, readSet.symbols.Keys);
    causes := AddSymbolCauses(rules, readSet, changed, w, symbols);
    var queries := Ordered(rules.queryLess, readSet.queries.Keys);
    var more := AddQueryCauses(rules, readSet, w, queries);
    causes := causes + more;
  }

  method AddSymbolCauses(rules: Rules, readSet: ReadSet, changed: seq<Symbol>, w: State, symbols: seq<Symbol>)
    returns (causes: seq<Cause>)
    ensures causes == SymbolCauses(rules, readSet, changed, w, symbols)
  {
    hide SymbolCause;
    causes := [];
    for i := 0 to |symbols|
      invariant causes == SymbolCauses(rules, readSet, changed, w, symbols[..i])
    {
      assert symbols[..i + 1][..i] == symbols[..i];
      causes := causes + SymbolCause(rules, readSet, changed, w, symbols[i]);
    }
    assert symbols[..|symbols|] == symbols;
  }

  method AddQueryCauses(rules: Rules, readSet: ReadSet, w: State, queries: seq<Query>) returns (causes: seq<Cause>)
    ensures causes == QueryCauses(rules, readSet, w, queries)
  {
    hide QueryCause;
    causes := [];
    for i := 0 to |queries|
      invariant causes == QueryCauses(rules, readSet, w, queries[..i])
    {
      assert queries[..i + 1][..i] == queries[..i];
      causes := causes + QueryCause(rules, readSet, w, queries[i]);
    }
    assert queries[..|queries|] == queries;
  }

  lemma LawfulOrders(rules: Rules)
    requires Lawful(rules)
    ensures StrictOrder(rules.symbolLess) && StrictOrder(rules.queryLess)
  {
  }

  lemma {:induction false} NoSymbolCause(rules: Rules, readSet: ReadSet, changed: seq<Symbol>, w: State,
      list: seq<Symbol>)
    ensures SymbolCauses(rules, readSet, changed, w, list) == [] <==>
            forall s :: s in list ==> s !in changed || SymbolHolds(rules, readSet, w, s)
  {
    if list != [] {
      var front, last := list[..|list| - 1], list[|list| - 1];
      NoSymbolCause(rules, readSet, changed, w, front);
      assert list == front + [last];
      assert SymbolCause(rules, readSet, changed, w, last) == [] <==>
        last !in changed || SymbolHolds(rules, readSet, w, last);
      hide SymbolCause, SymbolHolds;
    }
  }

  lemma {:induction false} NoQueryCause(rules: Rules, readSet: ReadSet, w: State, list: seq<Query>)
    ensures QueryCauses(rules, readSet, w, list) == [] <==> forall q :: q in list ==> QueryHolds(rules, readSet, w, q)
  {
    if list != [] {
      var front, last := list[..|list| - 1], list[|list| - 1];
      NoQueryCause(rules, readSet, w, front);
      assert list == front + [last];
      assert QueryCause(rules, readSet, w, last) == [] <==> QueryHolds(rules, readSet, w, last);
      hide QueryCause, QueryHolds;
    }
  }

  lemma NoCause(rules: Rules, readSet: ReadSet, changed: seq<Symbol>, w: State)
    requires Lawful(rules)
    ensures CausesOf(rules, readSet, changed, w) == [] <==>
            (forall s :: s in readSet.symbols ==> s !in changed || SymbolHolds(rules, readSet, w, s)) &&
            QueriesHold(rules, readSet, w)
  {
    LawfulOrders(rules);
    hide SymbolHolds, QueryHolds, StrictOrder, Lawful, Ordered;
    NoSymbolCause(rules, readSet, changed, w, Ordered(rules.symbolLess, readSet.symbols.Keys));
    NoQueryCause(rules, readSet, w, Ordered(rules.queryLess, readSet.queries.Keys));
  }

  /** What a cause says of a read set and a head. */
  predicate Tells(rules: Rules, readSet: ReadSet, changed: seq<Symbol>, w: State, cause: Cause) {
    match cause
    case RemovedSymbol(s) => s in readSet.symbols && s in changed && PrintOf(rules, w, s) == None
    case ChangedSymbol(s) =>
      && s in readSet.symbols && s in changed
      && PrintOf(rules, w, s).Some? && PrintOf(rules, w, s).value != readSet.symbols[s]
    case ChangedQuery(q) => q.GraphQuery? && q in readSet.queries && rules.answer(w, q) != readSet.queries[q]
    case ChangedSearch(q) => q.Search? && q in readSet.queries && rules.answer(w, q) != readSet.queries[q]
  }

  predicate OfSymbol(cause: Cause) {
    cause.RemovedSymbol? || cause.ChangedSymbol?
  }

  /** The order of causes: symbols in theirs, then queries in theirs. */
  predicate CauseLess(rules: Rules, a: Cause, b: Cause) {
    if OfSymbol(a) then !OfSymbol(b) || rules.symbolLess(a.symbol, b.symbol)
    else !OfSymbol(b) && rules.queryLess(a.query, b.query)
  }

  ghost predicate CausesAscend(rules: Rules, causes: seq<Cause>) {
    forall i, j :: 0 <= i < j < |causes| ==> CauseLess(rules, causes[i], causes[j])
  }

  lemma {:induction false} SymbolCausesTell(rules: Rules, readSet: ReadSet, changed: seq<Symbol>, w: State,
      list: seq<Symbol>)
    requires Strict(rules.symbolLess, list)
    ensures var causes := SymbolCauses(rules, readSet, changed, w, list);
            CausesAscend(rules, causes) &&
            forall c :: c in causes <==> OfSymbol(c) && c.symbol in list && Tells(rules, readSet, changed, w, c)
  {
    if list != [] {
      var front, s := list[..|list| - 1], list[|list| - 1];
      SymbolCausesTell(rules, readSet, changed, w, front);
      OneCauseTells(rules, readSet, changed, w, s);
      assert list == front + [s];
      hide Tells, SymbolCause;
      var causes, last := SymbolCauses(rules, readSet, changed, w, front), SymbolCause(rules, readSet, changed, w, s);
      forall i | 0 <= i < |causes| && last != [] ensures CauseLess(rules, causes[i], last[0]) {
        assert causes[i] in causes && last[0] in last && rules.symbolLess(causes[i].symbol, s);
      }
    }
  }

  lemma OneCauseTells(rules: Rules, readSet: ReadSet, changed: seq<Symbol>, w: State, s: Symbol)
    ensures |SymbolCause(rules, readSet, changed, w, s)| <= 1
    ensures forall c :: c in SymbolCause(rules, readSet, changed, w, s) <==>
                          OfSymbol(c) && c.symbol == s && Tells(rules, readSet, changed, w, c)
  {
    hide PrintOf;
  }

  lemma {:induction false} QueryCausesTell(rules: Rules, readSet: ReadSet, changed: seq<Symbol>, w: State,
      list: seq<Query>)
    requires Strict(rules.queryLess, list)
    ensures var causes := QueryCauses(rules, readSet, w, list);
            CausesAscend(rules, causes) &&
            forall c :: c in causes <==> !OfSymbol(c) && c.query in list && Tells(rules, readSet, changed, w, c)
  {
    if list != [] {
      var front, q := list[..|list| - 1], list[|list| - 1];
      QueryCausesTell(rules, readSet, changed, w, front);
      OneQueryTells(rules, readSet, changed, w, q);
      assert list == front + [q];
      hide Tells, QueryCause;
      var causes, last := QueryCauses(rules, readSet, w, front), QueryCause(rules, readSet, w, q);
      forall i | 0 <= i < |causes| && last != [] ensures CauseLess(rules, causes[i], last[0]) {
        assert causes[i] in causes && last[0] in last && rules.queryLess(causes[i].query, q);
      }
    }
  }

  lemma OneQueryTells(rules: Rules, readSet: ReadSet, changed: seq<Symbol>, w: State, q: Query)
    ensures |QueryCause(rules, readSet, w, q)| <= 1
    ensures forall c :: c in QueryCause(rules, readSet, w, q) <==>
                          !OfSymbol(c) && c.query == q && Tells(rules, readSet, changed, w, c)
  {
  }

  /** The causes are exactly those that tell the truth, each once, symbols' before queries', in their orders. */
  lemma CausesTell(rules: Rules, readSet: ReadSet, changed: seq<Symbol>, w: State)
    requires Lawful(rules)
    ensures forall c :: c in CausesOf(rules, readSet, changed, w) <==> Tells(rules, readSet, changed, w, c)
    ensures CausesAscend(rules, CausesOf(rules, readSet, changed, w))
  {
    LawfulOrders(rules);
    hide Lawful, StrictOrder, Strict, SymbolCauses, QueryCauses, Ordered, PrintOf, CausesAscend, Tells;
    var symbols := Ordered(rules.symbolLess, readSet.symbols.Keys);
    var queries := Ordered(rules.queryLess, readSet.queries.Keys);
    SymbolCausesTell(rules, readSet, changed, w, symbols);
    QueryCausesTell(rules, readSet, changed, w, queries);
    var a, b := SymbolCauses(rules, readSet, changed, w, symbols), QueryCauses(rules, readSet, w, queries);
    JoinAscends(rules, a, b);
    forall c ensures c in a + b <==> Tells(rules, readSet, changed, w, c) {
      if Tells(rules, readSet, changed, w, c) { TellsObserved(rules, readSet, changed, w, c); }
    }
  }

  lemma JoinAscends(rules: Rules, a: seq<Cause>, b: seq<Cause>)
    requires CausesAscend(rules, a) && CausesAscend(rules, b)
    requires (forall c :: c in a ==> OfSymbol(c)) && (forall c :: c in b ==> !OfSymbol(c))
    ensures CausesAscend(rules, a + b)
  {
    forall i, j | 0 <= i < |a| && 0 <= j < |b| ensures CauseLess(rules, a[i], b[j]) {
      assert a[i] in a && b[j] in b;
    }
  }

  lemma TellsObserved(rules: Rules, readSet: ReadSet, changed: seq<Symbol>, w: State, cause: Cause)
    requires Tells(rules, readSet, changed, w, cause)
    ensures if OfSymbol(cause) then cause.symbol in readSet.symbols else cause.query in readSet.queries
  {
    hide PrintOf;
  }

  /** The symbols listed are just those whose fingerprints differ. */
  ghost predicate Differing(rules: Rules, before: State, after: State, changed: seq<Symbol>) {
    forall s :: s in changed <==> PrintOf(rules, before, s) != PrintOf(rules, after, s)
  }

  /** Whether every observed symbol held at the old head, but for those changed since. */
  ghost predicate HeldUnlessChanged(rules: Rules, readSet: ReadSet, changed: seq<Symbol>, before: State) {
    forall s :: s in readSet.symbols && s !in changed ==> SymbolHolds(rules, readSet, before, s)
  }

  /**
   The sweep over the changed symbols refines the gate's full recheck: of a read set whose unchanged
   symbols held at the old head it finds a cause exactly when the gate would refuse the reads at the new.
   */
  lemma SweepRefines(rules: Rules, readSet: ReadSet, changed: seq<Symbol>, before: State, after: State)
    requires Lawful(rules) && Differing(rules, before, after, changed)
    requires HeldUnlessChanged(rules, readSet, changed, before)
    ensures CausesOf(rules, readSet, changed, after) == [] <==> ReadsHold(rules, readSet, after)
  {
    NoCause(rules, readSet, changed, after);
  }

  /**
   It agrees with the recheck exactly then, or when something else gives it a cause: an observed symbol
   that changed and does not hold now, or a query's answer. So it misses just what was stale before.
   */
  lemma SweepAgreesIff(rules: Rules, readSet: ReadSet, changed: seq<Symbol>, before: State, after: State)
    requires Lawful(rules) && Differing(rules, before, after, changed)
    ensures (CausesOf(rules, readSet, changed, after) == [] <==> ReadsHold(rules, readSet, after)) <==>
            HeldUnlessChanged(rules, readSet, changed, before) ||
            (exists s :: s in readSet.symbols && s in changed && !SymbolHolds(rules, readSet, after, s)) ||
            !QueriesHold(rules, readSet, after)
  {
    NoCause(rules, readSet, changed, after);
  }

  /** Whatever held before, a cause found always means the gate would refuse. */
  lemma CauseMeansRefusal(rules: Rules, task: Task, request: Request, changed: seq<Symbol>, head: Snapshot)
    requires Lawful(rules) && CausesOf(rules, task.readSet, changed, head.workspace) != []
    ensures !Accepts(rules, task, request, head)
  {
    NoCause(rules, task.readSet, changed, head.workspace);
  }

  /** A read set taken over again, of another workspace: the same symbols and queries, as found there. */
  function Reread(rules: Rules, readSet: ReadSet, w: State): ReadSet {
    ReadSet(map s | s in readSet.symbols && s in GraphOf(rules, w) :: GraphOf(rules, w)[s],
      map q | q in readSet.queries :: rules.answer(w, q))
  }

  lemma RereadSame(rules: Rules, readSet: ReadSet, w: State)
    ensures Reread(rules, readSet, w) == readSet <==> ReadsHold(rules, readSet, w)
  {
    hide GraphOf;
    var again := Reread(rules, readSet, w);
    if ReadsHold(rules, readSet, w) {
      forall s | s in readSet.symbols ensures s in GraphOf(rules, w) && GraphOf(rules, w)[s] == readSet.symbols[s] {
        assert SymbolHolds(rules, readSet, w, s);
      }
      forall q | q in readSet.queries ensures rules.answer(w, q) == readSet.queries[q] {
        assert QueryHolds(rules, readSet, w, q);
      }
      assert again.symbols == readSet.symbols;
      assert again.queries == readSet.queries;
    }
    if again == readSet {
      forall s | s in readSet.symbols ensures SymbolHolds(rules, readSet, w, s) { assert s in again.symbols; }
      forall q | q in readSet.queries ensures QueryHolds(rules, readSet, w, q) { assert q in again.queries; }
    }
  }

  /** The task that does the same reads with nothing between it and the head. */
  function Serial(rules: Rules, task: Task, head: Snapshot): Task {
    task.(pinned := head, readSet := Reread(rules, task.readSet, head.workspace))
  }

  /**
   What is accepted would be accepted of the task run alone at the head: what it had found, it finds
   there unchanged, and the same patch is accepted.
   */
  lemma AcceptedSerially(rules: Rules, task: Task, request: Request, head: Snapshot)
    requires Accepts(rules, task, request, head)
    ensures Serial(rules, task, head).readSet == task.readSet
    ensures Accepts(rules, Serial(rules, task, head), request.(base := head.revision), head)
  {
    RereadSame(rules, task.readSet, head.workspace);
    hide InScope, SymbolsHold, QueriesHold, ReferencesRead, Applied;
  }

  /** Look-ups that find nothing; a read set does not record them. */
  ghost predicate Misses(rules: Rules, missed: set<Symbol>, w: State) {
    forall s :: s in missed ==> PrintOf(rules, w, s).None?
  }

  /** Whether two workspaces answer alike whatever was asked: symbols found, symbols missed, and queries. */
  ghost predicate AnswerAlike(rules: Rules, readSet: ReadSet, missed: set<Symbol>, a: State, b: State) {
    && (forall s :: s in readSet.symbols || s in missed ==> PrintOf(rules, a, s) == PrintOf(rules, b, s))
    && (forall q :: q in readSet.queries ==> rules.answer(a, q) == rules.answer(b, q))
  }

  /**
   The head answers whatever a task accepted there had asked as its own snapshot did, exactly when it
   still lacks every symbol the task had looked for and missed.
   */
  lemma AcceptedAlike(rules: Rules, task: Task, request: Request, head: Snapshot, missed: set<Symbol>)
    requires Accepts(rules, task, request, head)
    requires ReadsHold(rules, task.readSet, task.pinned.workspace) && Misses(rules, missed, task.pinned.workspace)
    ensures AnswerAlike(rules, task.readSet, missed, task.pinned.workspace, head.workspace) <==>
            Misses(rules, missed, head.workspace)
  {
    hide InScope, ReferencesRead, Applied, TargetsHold, PrintOf;
    var base, w := task.pinned.workspace, head.workspace;
    forall s | s in task.readSet.symbols ensures PrintOf(rules, base, s) == PrintOf(rules, w, s) {
      assert SymbolHolds(rules, task.readSet, base, s) && SymbolHolds(rules, task.readSet, w, s);
    }
    forall q | q in task.readSet.queries ensures rules.answer(base, q) == rules.answer(w, q) {
      assert QueryHolds(rules, task.readSet, base, q) && QueryHolds(rules, task.readSet, w, q);
    }
  }

  /**
   Whether each slice a patch names, an outbox runtime's excepted, holds in one workspace what it holds in another.
   */
  ghost predicate Untouched(patch: seq<Mutation>, base: State, w: State) {
    && (forall s: Symbol :: Covered(Footprints(patch), s) && !s.OutboxRuntime? ==> SliceOf(base, s) == SliceOf(w, s))
    && (forall id: Id :: PromptObligation(id) in Footprints(patch) ==>
         Get(base.obligations, id) == Get(w.obligations, id))
  }

  /**
   No update is lost: what a commit replaces or deletes is at the head what it was at the task's
   snapshot, in every slice but outbox runtimes, of which the graph tells nothing.
   */
  lemma AcceptedUntouched(rules: Rules, task: Task, request: Request, head: Snapshot)
    requires Accepts(rules, task, request, head)
    ensures Untouched(request.patch, task.pinned.workspace, head.workspace)
  {
    var base, w := task.pinned.workspace, head.workspace;
    hide Accepts, Told, SliceOf;
    AcceptedTargets(rules, task, request, head);
    forall s: Symbol | Covered(Footprints(request.patch), s) && !s.OutboxRuntime?
      ensures SliceOf(base, s) == SliceOf(w, s) {
      var t :| t in Footprints(request.patch) && Covers(t, s);
      TargetTold(rules, base, w, t);
      ToldAlike(base, w, t);
    }
    forall id: Id | PromptObligation(id) in Footprints(request.patch)
      ensures Get(base.obligations, id) == Get(w.obligations, id) {
      TargetTold(rules, base, w, PromptObligation(id));
      ToldAlike(base, w, PromptObligation(id));
    }
  }

  lemma AcceptedTargets(rules: Rules, task: Task, request: Request, head: Snapshot)
    requires Accepts(rules, task, request, head)
    ensures forall t :: t in Footprints(request.patch) ==>
                          PrintOf(rules, task.pinned.workspace, t) == PrintOf(rules, head.workspace, t)
  {
    hide InScope, ReferencesRead, Applied, ReadsHold, PrintOf;
  }

  lemma TargetTold(rules: Rules, base: State, w: State, t: Symbol)
    requires PrintOf(rules, base, t) == PrintOf(rules, w, t)
    ensures Told(base, t) == Told(w, t)
  {
    NodesTell(base, rules.derived(base), t);
    NodesTell(w, rules.derived(w), t);
    hide Nodes;
  }

  /** What is said of a workspace but for its outbox runtimes is said of it with any others. */
  ghost predicate BlindToOutboxes(rules: Rules, task: Task, patch: seq<Mutation>, w: State, other: State) {
    && other == w.(outboxes := other.outboxes)
    && rules.derived(other) == rules.derived(w)
    && (forall q :: q in task.readSet.queries ==> rules.answer(other, q) == rules.answer(w, q))
    && Applied(rules, other, patch).Some?
  }

  /** So an outbox runtime is not guarded: whatever others have made of them, the gate accepts what it would have. */
  lemma OutboxesUnguarded(rules: Rules, task: Task, request: Request, head: Snapshot, other: Snapshot)
    requires Accepts(rules, task, request, head) &&
             BlindToOutboxes(rules, task, request.patch, head.workspace, other.workspace)
    ensures Accepts(rules, task, request, other)
  {
    hide InScope, ReferencesRead, Applied, PrintOf, Footprints;
    forall s ensures PrintOf(rules, other.workspace, s) == PrintOf(rules, head.workspace, s) {
      SamePrint(rules, head.workspace, other.workspace, s);
    }
    forall s | s in task.readSet.symbols ensures SymbolHolds(rules, task.readSet, other.workspace, s) {
      assert SymbolHolds(rules, task.readSet, head.workspace, s);
    }
    forall q | q in task.readSet.queries ensures QueryHolds(rules, task.readSet, other.workspace, q) {
      assert QueryHolds(rules, task.readSet, head.workspace, q);
    }
  }

  lemma SamePrint(rules: Rules, w: State, other: State, s: Symbol)
    requires other == w.(outboxes := other.outboxes) && rules.derived(other) == rules.derived(w)
    ensures PrintOf(rules, other, s) == PrintOf(rules, w, s)
  {
    NodesTell(w, rules.derived(w), s);
    NodesTell(other, rules.derived(w), s);
    hide Nodes;
  }
}
