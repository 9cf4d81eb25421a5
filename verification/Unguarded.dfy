/**
 What the gate and the sweep do not guard, each by a run in which everything published sweeps: an outbox
 runtime written over, a commit of a task that looked for a symbol, missed it, and was overtaken by its
 declaration, and a worker left running on what was stale when it read it.
 */
module Unguarded {
  import opened Common
  import opened SortDedup
  import opened Proposals
  import opened Patch
  import opened Slices
  import opened Gate
  import opened Engine
  import opened EngineRuns
  import opened Sweep

  /** Rules that let every write through, so that only what the tasks saw and wrote decides. */
  ghost predicate Open(rules: Rules) {
    && Lawful(rules)
    && (forall scope, m :: rules.permits(scope, m))
    && (forall w, patch :: rules.check(w, patch) == [])
    && (forall patch :: rules.collect(patch) == [])
  }

  function OpenRules(): Rules {
    Rules(_ => map[], (_, _) => 0, (_, _) => [], (_, _) => true, _ => [], SymbolLess, QueryLess)
  }

  lemma OpenExists()
    ensures Open(OpenRules())
  {
    OrdersExist(OpenRules());
    hide SymbolLess, QueryLess;
  }

  /** Mutations that raise nothing on any workspace. */
  predicate IsPut(m: Mutation) {
    m.PutShared? || m.PutOutbox?
  }

  lemma PutFootprint(m: Mutation)
    requires IsPut(m)
    ensures Footprints([m]) == [WriteTarget(m)]
  {
    assert [m][..0] == [];
  }

  lemma PutApplies(w: State, m: Mutation)
    requires IsPut(m)
    ensures ApplyAll(w, [m]) == (Apply(w, m).0, [])
  {
    assert [m][..|[m]| - 1] == [] && ApplyAll(w, []) == (w, []);
    hide PutInner;
    var none: seq<Diagnostic> := [];
    assert Apply(w, m).1 == none && none + none == none;
    assert ApplyAll(w, [m]) == (Apply(w, m).0, none + none);
  }

  /** A task that has read nothing has its put accepted where the symbol it writes is told as it was. */
  lemma PutAccepted(rules: Rules, task: Task, request: Request, head: Snapshot, m: Mutation)
    requires Open(rules) && IsPut(m) && request.patch == [m] && request.base == task.pinned.revision
    requires task.readSet == NOTHING_READ
    requires Told(task.pinned.workspace, WriteTarget(m)) == Told(head.workspace, WriteTarget(m))
    ensures Answers(rules, task, request, head, Passed(Apply(head.workspace, m).0))
  {
    hide ApplyAll, Apply, Footprints, Told, PrintOf, Explains;
    PutApplies(head.workspace, m);
    PutTargets(rules, task.pinned.workspace, head.workspace, m);
    NothingHolds(rules, head.workspace);
  }

  lemma PutTargets(rules: Rules, base: State, w: State, m: Mutation)
    requires IsPut(m) && Told(base, WriteTarget(m)) == Told(w, WriteTarget(m))
    ensures TargetsHold(rules, [m], base, w)
  {
    PutFootprint(m);
    NodesTell(base, rules.derived(base), WriteTarget(m));
    NodesTell(w, rules.derived(w), WriteTarget(m));
    hide Told, Nodes, Footprints;
  }

  /** The symbols whose fingerprints differ, as the sweep is given them. */
  ghost function Changed(rules: Rules, before: State, after: State): (changed: seq<Symbol>)
    requires Lawful(rules)
    ensures Differing(rules, before, after, changed)
  {
    hide Nodes;
    Ordered(rules.symbolLess, set s | s in GraphOf(rules, before).Keys + GraphOf(rules, after).Keys &&
                                      PrintOf(rules, before, s) != PrintOf(rules, after, s))
  }

  const CREATE := CreateStep(false, 0, true)

  /** A worker's commit of one mutation. */
  ghost function Put(rules: Rules, d: Design, id: Id, m: Mutation): Step
    requires Lawful(rules) && id in d.tasks
  {
    var w := Apply(d.head.workspace, m).0;
    SubmitStep(Request(id, d.tasks[id].pinned.revision, [m], 0), Passed(w), Changed(rules, d.head.workspace, w),
      true, true, false)
  }

  /** The engine once the commit is published and nobody was invalidated. */
  function AfterPut(d: Design, id: Id, m: Mutation): Design
    requires id in d.tasks
  {
    var task := d.tasks[id];
    var head := Snapshot(d.head.revision + 1, Apply(d.head.workspace, m).0);
    d.(head := head, tasks := d.tasks[id := task.(state := Committed)],
       nonces := d.nonces[(id, 0) := head.revision],
       log := d.log + [Commit(task, Request(id, task.pinned.revision, [m], 0), d.head, head)])
  }

  predicate ReadNothing(d: Design, id: Id) {
    id in d.tasks && IsWorker(d.tasks[id]) && d.tasks[id].readSet == NOTHING_READ && (id, 0) !in d.nonces
  }

  /** Whether a mutation leaves what a task has observed as it is told. */
  ghost predicate Passes(rules: Rules, task: Task, before: State, m: Mutation) {
    && task.readSet.queries == map[]
    && forall s :: s in task.readSet.symbols ==> PrintOf(rules, before, s) == PrintOf(rules, Apply(before, m).0, s)
  }

  /** The sweep leaves workers alone that observed nothing of what changed. */
  lemma SweptStill(rules: Rules, tasks: map<Id, Task>, before: State, m: Mutation)
    requires Lawful(rules)
    requires forall id :: id in tasks && IsWorker(tasks[id]) ==> Passes(rules, tasks[id], before, m)
    ensures var w := Apply(before, m).0; Swept(rules, tasks, Changed(rules, before, w), w) == tasks
  {
    hide PrintOf, Apply, CausesOf, Lawful, Changed;
    var w := Apply(before, m).0;
    var changed := Changed(rules, before, w);
    forall id | id in tasks && IsWorker(tasks[id]) ensures CausesOf(rules, tasks[id].readSet, changed, w) == [] {
      assert Passes(rules, tasks[id], before, m);
      NoCause(rules, tasks[id].readSet, changed, w);
    }
  }

  /** A worker that has read nothing commits its put where its target is told as at its snapshot. */
  lemma PutNext(rules: Rules, d: Design, id: Id, m: Mutation)
    requires Lawful(rules) && Open(rules) && IsPut(m) && ReadNothing(d, id)
    requires Told(d.tasks[id].pinned.workspace, WriteTarget(m)) == Told(d.head.workspace, WriteTarget(m))
    requires forall other :: other in d.tasks && other != id && IsWorker(d.tasks[other]) ==>
               Passes(rules, d.tasks[other], d.head.workspace, m)
    ensures StepsTo(rules, d, Put(rules, d, id, m), AfterPut(d, id, m))
  {
    hide Answers, Told, Apply, Swept, Open, Changed, Passes, Differing;
    var task := d.tasks[id];
    PutAccepted(rules, task, Request(id, task.pinned.revision, [m], 0), d.head, m);
    SweptStill(rules, d.tasks[id := task.(state := Committed)], d.head.workspace, m);
    hide Lawful;
  }

  /** A step the engine may take, from one state to the next. */
  ghost predicate StepsTo(rules: Rules, d: Design, step: Step, after: Design)
    requires Lawful(rules)
  {
    Legal(rules, d, step) && Sweeps(rules, d, step) && Next(rules, d, step) == after
  }

  lemma CreateLeads(rules: Rules, d: Design)
    requires Lawful(rules)
    ensures StepsTo(rules, d, CREATE, Create(d, false, 0, true))
  {
    hide Lawful;
  }

  lemma ReadLeads(rules: Rules, d: Design, id: Id, symbol: Symbol)
    requires Lawful(rules)
    ensures StepsTo(rules, d, ReadStep(id, symbol), Observe(rules, d, id, symbol).0)
  {
    hide Lawful, Observe;
  }

  lemma OpenLawful(rules: Rules)
    requires Open(rules)
    ensures Lawful(rules)
  {
  }

  /** Steps one after the other. */
  lemma {:induction false} RunThrough(rules: Rules, d: seq<Design>, steps: seq<Step>)
    requires Lawful(rules) && |d| == |steps| + 1
    requires forall i :: 0 <= i < |steps| ==> StepsTo(rules, d[i], steps[i], d[i + 1])
    ensures AllLegal(rules, d[0], steps) && AllSweep(rules, d[0], steps) && Run(rules, d[0], steps) == d[|steps|]
    decreases |steps|
  {
    hide Legal, Sweeps, Next, Lawful;
    if steps != [] { RunThrough(rules, d[1..], steps[1..]); }
  }

  /** What a commit leaves of the others. */
  lemma AfterPutKeeps(d: Design, id: Id, m: Mutation, other: Id)
    requires id in d.tasks && other != id
    ensures other in d.tasks ==> var after := AfterPut(d, id, m);
                                 other in after.tasks && after.tasks[other] == d.tasks[other]
    ensures ReadNothing(d, other) ==> ReadNothing(AfterPut(d, id, m), other)
    ensures !IsWorker(AfterPut(d, id, m).tasks[id])
    ensures AfterPut(d, id, m).head.workspace == Apply(d.head.workspace, m).0
  {
    hide Apply;
  }

  /** Two workers created one after the other. */
  function TwoCreated(origin: Snapshot): (d: Design)
    ensures ReadNothing(d, 0) && ReadNothing(d, 1) && d.tasks.Keys == {0, 1}
    ensures d.tasks[0].pinned == d.tasks[1].pinned == d.head == origin && d.log == [] && d.issued == 2
    ensures d.missed == map[]
  {
    Create(Create(Start(origin), false, 0, true), false, 0, true)
  }

  function Missed(origin: Snapshot, symbol: Symbol): (d: Design)
    ensures ReadNothing(d, 0) && ReadNothing(d, 1) && d.tasks.Keys == {0, 1}
    ensures d.tasks[0].pinned == d.tasks[1].pinned == d.head == origin && d.log == []
    ensures MissedBy(d, 1) == {symbol}
  {
    TwoCreated(origin).(missed := map[1 := {symbol}])
  }

  /** The engine after the second looked for a symbol and both committed their puts. */
  function BothPut(origin: Snapshot, symbol: Symbol, first: Mutation, second: Mutation): Design {
    var one := AfterPut(Missed(origin, symbol), 0, first);
    AfterPutKeeps(Missed(origin, symbol), 0, first, 1);
    AfterPut(one, 1, second)
  }

  /**
   Two workers pinned at one head: the second looks for a symbol and misses it, the first commits its
   put, and then the second its own, over the first, though its task saw only the origin.
   */
  lemma OvertakenRuns(rules: Rules, origin: Snapshot, symbol: Symbol, first: Mutation, second: Mutation)
    returns (steps: seq<Step>)
    requires Lawful(rules) && Open(rules) && IsPut(first) && IsPut(second)
    requires PrintOf(rules, origin.workspace, symbol).None?
    requires Told(origin.workspace, WriteTarget(second)) == Told(Apply(origin.workspace, first).0, WriteTarget(second))
    ensures AllLegal(rules, Start(origin), steps) && AllSweep(rules, Start(origin), steps)
    ensures Run(rules, Start(origin), steps) == BothPut(origin, symbol, first, second)
  {
    hide Open, Lawful, PrintOf, Told, Apply, Passes, Run, AllLegal, AllSweep, IsPut, StepsTo, Put, AfterPut, Create,
      Observe, Missed, ReadNothing, WriteTarget;
    var d1 := Create(Start(origin), false, 0, true);
    var d2, d3 := TwoCreated(origin), Missed(origin, symbol);
    var d4, d5 := AfterPut(d3, 0, first), BothPut(origin, symbol, first, second);
    AfterPutKeeps(d3, 0, first, 1);
    CreateLeads(rules, Start(origin));
    CreateLeads(rules, d1);
    ReadLeads(rules, d2, 1, symbol);
    MissesIt(rules, origin, symbol);
    FirstPut(rules, origin, symbol, first);
    SecondPut(rules, origin, symbol, first, second);
    steps := [CREATE, CREATE, ReadStep(1, symbol), Put(rules, d3, 0, first), Put(rules, d4, 1, second)];
    RunThrough(rules, [Start(origin), d1, d2, d3, d4, d5], steps);
  }

  lemma FirstPut(rules: Rules, origin: Snapshot, symbol: Symbol, first: Mutation)
    requires Lawful(rules) && Open(rules) && IsPut(first)
    ensures var d := Missed(origin, symbol); StepsTo(rules, d, Put(rules, d, 0, first), AfterPut(d, 0, first))
  {
    hide Open, Lawful, Told, Apply, Passes, StepsTo, Put, AfterPut, Missed;
    var d := Missed(origin, symbol);
    NothingPasses(rules, d.tasks[1], d.head.workspace, first);
    PutNext(rules, d, 0, first);
  }

  lemma SecondPut(rules: Rules, origin: Snapshot, symbol: Symbol, first: Mutation, second: Mutation)
    requires Lawful(rules) && Open(rules) && IsPut(second)
    requires Told(origin.workspace, WriteTarget(second)) == Told(Apply(origin.workspace, first).0, WriteTarget(second))
    ensures 1 in AfterPut(Missed(origin, symbol), 0, first).tasks
    ensures var d := AfterPut(Missed(origin, symbol), 0, first);
            StepsTo(rules, d, Put(rules, d, 1, second), BothPut(origin, symbol, first, second))
  {
    hide Open, Lawful, Told, Apply, Passes, StepsTo, Put, Missed;
    var before := Missed(origin, symbol);
    AfterPutKeeps(before, 0, first, 1);
    var d := AfterPut(before, 0, first);
    PutNext(rules, d, 1, second);
  }

  lemma MissesIt(rules: Rules, origin: Snapshot, symbol: Symbol)
    requires PrintOf(rules, origin.workspace, symbol).None?
    ensures Observe(rules, TwoCreated(origin), 1, symbol).0 == Missed(origin, symbol)
  {
    hide PrintOf;
    assert {} + {symbol} == {symbol};
    assert map[][1 := {symbol}] == map[1 := {symbol}];
  }

  lemma NothingPasses(rules: Rules, task: Task, before: State, m: Mutation)
    requires task.readSet == NOTHING_READ
    ensures Passes(rules, task, before, m)
  {
  }

  /**
   Two tasks pinned at one snapshot put the same outbox runtime, and the second silently replaces the
   first: its task saw what the origin holds there, and its commit writes over what the first put.
   */
  lemma OutboxOverwritten(rules: Rules, origin: Snapshot, operation: Id, input: Id, first: nat,
      second: nat) returns (steps: seq<Step>)
    requires Open(rules)
    ensures AllLegal(rules, Start(origin), steps) && AllSweep(rules, Start(origin), steps)
    ensures var d := Run(rules, Start(origin), steps);
            var runtime := OutboxRuntime(operation, input);
            |d.log| == 2 && d.log[1].Commit? && runtime in Footprints(d.log[1].request.patch) &&
            d.log[1].task.pinned == origin &&
            SliceOf(d.log[1].parent.workspace, runtime) == Held(Some(first)) &&
            SliceOf(d.log[1].result.workspace, runtime) == Held(Some(second))
  {
    hide Run, AllLegal, AllSweep, Open, PrintOf, Footprints, Apply, SliceOf, Told, Start, BothPut, Lawful;
    var runtime := OutboxRuntime(operation, input);
    var a, b := PutOutbox(operation, input, first), PutOutbox(operation, input, second);
    var w := Apply(origin.workspace, a).0;
    NoNode(rules, origin.workspace, operation, input);
    PutFootprint(b);
    OutboxPut(origin.workspace, operation, input, first);
    OutboxPut(w, operation, input, second);
    ToldNothing(origin.workspace, w, operation, input);
    OpenLawful(rules);
    steps := OvertakenRuns(rules, origin, runtime, a, b);
    BothLogged(origin, runtime, a, b);
  }

  lemma ToldNothing(base: State, w: State, operation: Id, input: Id)
    ensures Told(base, OutboxRuntime(operation, input)) == Told(w, OutboxRuntime(operation, input))
  {
  }

  lemma NoNode(rules: Rules, w: State, operation: Id, input: Id)
    ensures PrintOf(rules, w, OutboxRuntime(operation, input)).None?
  {
    NodesTell(w, rules.derived(w), OutboxRuntime(operation, input));
    hide Nodes;
  }

  lemma OutboxPut(w: State, operation: Id, input: Id, value: nat)
    ensures SliceOf(Apply(w, PutOutbox(operation, input, value)).0, OutboxRuntime(operation, input)) ==
            Held(Some(value))
  {
    InnerFrame(w.outboxes, operation, input, value, operation, input);
    hide PutInner, InnerAt;
  }

  /**
   A task looks for a service and misses it, another declares the service, and the first commits all the
   same: done again at its parent, the look-up it reasoned from would succeed.
   */
  lemma MissOvertaken(rules: Rules, origin: Snapshot, service: Id, schema: Id, value: nat)
    returns (steps: seq<Step>)
    requires Open(rules) && (Services, service) !in origin.workspace.shared
    ensures AllLegal(rules, Start(origin), steps) && AllSweep(rules, Start(origin), steps)
    ensures var d := Run(rules, Start(origin), steps);
            |d.log| == 2 && d.log[1].Commit? && d.log[1].request.task == 1 &&
              Shared(Services, service) in MissedBy(d, 1) &&
            PrintOf(rules, d.log[1].task.pinned.workspace, Shared(Services, service)).None? &&
            PrintOf(rules, d.log[1].parent.workspace, Shared(Services, service)).Some? &&
            !AnswerAlike(rules, d.log[1].task.readSet, MissedBy(d, 1), d.log[1].task.pinned.workspace,
              d.log[1].parent.workspace)
  {
    var symbol := Shared(Services, service);
    var a, b := PutShared(Services, service, value), PutShared(Schemas, schema, value);
    var base, w := origin.workspace, Apply(origin.workspace, a).0;
    ServicePut(rules, base, service, value);
    SchemaTold(base, service, schema, value);
    hide Run, AllLegal, AllSweep, Open, PrintOf, Apply, Told, Start, BothPut, Lawful;
    OpenLawful(rules);
    steps := OvertakenRuns(rules, origin, symbol, a, b);
    BothLogged(origin, symbol, a, b);
    assert symbol in {symbol};
  }

  lemma SchemaTold(base: State, service: Id, schema: Id, value: nat)
    ensures Told(base, Shared(Schemas, schema)) ==
            Told(Apply(base, PutShared(Services, service, value)).0, Shared(Schemas, schema))
  {
  }

  /** How a service is told before and after it is put. */
  lemma ServicePut(rules: Rules, base: State, service: Id, value: nat)
    ensures PrintOf(rules, base, Shared(Services, service)) ==
            if (Services, service) !in base.shared then None
            else Some(OfContent(base.shared[(Services, service)]))
    ensures PrintOf(rules, Apply(base, PutShared(Services, service, value)).0, Shared(Services, service)) ==
            Some(OfContent(value))
  {
    var w := Apply(base, PutShared(Services, service, value)).0;
    NodesTell(base, rules.derived(base), Shared(Services, service));
    NodesTell(w, rules.derived(w), Shared(Services, service));
    hide Nodes;
  }

  /** What the log of such a run ends with. */
  lemma BothLogged(origin: Snapshot, symbol: Symbol, first: Mutation, second: Mutation)
    ensures var d := BothPut(origin, symbol, first, second);
            var w := Apply(origin.workspace, first).0;
            MissedBy(d, 1) == {symbol} && |d.log| == 2 && d.log[1].Commit? &&
            d.log[1].task.pinned == origin && d.log[1].task.readSet == NOTHING_READ &&
            d.log[1].request.task == 1 && d.log[1].request.patch == [second] &&
            d.log[1].parent.workspace == w && d.log[1].result.workspace == Apply(w, second).0
  {
    hide Apply;
  }

  /** A commit, and then a worker pinned before it that reads what it changed. */
  function ReadLate(origin: Snapshot, symbol: Symbol, m: Mutation, found: Fingerprint): (d: Design)
    ensures 1 in d.tasks && d.tasks[1].pinned == origin && IsWorker(d.tasks[1])
    ensures d.tasks[1].readSet == ReadSet(map[symbol := found], map[])
    ensures forall id :: id in d.tasks && IsWorker(d.tasks[id]) ==> id == 1
    ensures d.head.workspace == Apply(origin.workspace, m).0
    ensures d.issued == 2 && (2, 0) !in d.nonces
  {
    hide Apply;
    AfterPutKeeps(TwoCreated(origin), 0, m, 1);
    var d := AfterPut(TwoCreated(origin), 0, m);
    d.(tasks := d.tasks[1 := d.tasks[1].(readSet := ReadSet(map[symbol := found], map[]))])
  }

  /** And one more worker, pinned where the commit left the head. */
  function OneMore(origin: Snapshot, symbol: Symbol, m: Mutation, found: Fingerprint): (d: Design)
    ensures d == Create(ReadLate(origin, symbol, m, found), false, 0, true)
    ensures 1 in d.tasks && IsWorker(d.tasks[1]) && d.tasks[1].readSet == ReadSet(map[symbol := found], map[])
    ensures 2 in d.tasks && ReadNothing(d, 2) && d.tasks[2].pinned == d.head
    ensures forall id :: id in d.tasks && IsWorker(d.tasks[id]) ==> id == 1 || id == 2
    ensures d.head.workspace == Apply(origin.workspace, m).0
  {
    hide Apply, ReadLate;
    Create(ReadLate(origin, symbol, m, found), false, 0, true)
  }

  /**
   A worker reads, from its own snapshot, a service that a commit has changed since; another commit sweeps
   and does not find it, for the service is not among what that one changed. The worker runs on, although
   the gate would refuse whatever it submits.
   */
  lemma StaleReadKept(rules: Rules, origin: Snapshot, service: Id, value: nat, schema: Id, other: nat)
    returns (steps: seq<Step>)
    requires Open(rules) && (Services, service) in origin.workspace.shared
    requires origin.workspace.shared[(Services, service)] != value
    ensures AllLegal(rules, Start(origin), steps) && AllSweep(rules, Start(origin), steps)
    ensures var d := Run(rules, Start(origin), steps);
            1 in d.tasks && IsWorker(d.tasks[1]) && forall request :: !Accepts(rules, d.tasks[1], request, d.head)
  {
    var symbol := Shared(Services, service);
    var a, b := PutShared(Services, service, value), PutShared(Schemas, schema, other);
    var found := OfContent(origin.workspace.shared[(Services, service)]);
    ServicePut(rules, origin.workspace, service, value);
    ServiceStill(rules, Apply(origin.workspace, a).0, service, schema, other);
    OpenLawful(rules);
    hide Open, Lawful, PrintOf, Apply, Run, AllLegal, AllSweep, Accepts, AfterPut, Start, OneMore, ReadNothing,
      SymbolHolds;
    steps := LateRuns(rules, origin, symbol, a, found, b);
    var d := OneMore(origin, symbol, a, found);
    AfterPutKeeps(d, 2, b, 1);
    NotHeld(rules, AfterPut(d, 2, b), symbol, found);
    forall request ensures !Accepts(rules, AfterPut(d, 2, b).tasks[1], request, AfterPut(d, 2, b).head) {
      StaleRefused(rules, AfterPut(d, 2, b).tasks[1], request, AfterPut(d, 2, b).head, symbol);
    }
  }

  /** The run: a commit, the late read, and another commit by a worker created since. */
  lemma LateRuns(rules: Rules, origin: Snapshot, symbol: Symbol, m: Mutation, found: Fingerprint, later: Mutation)
    returns (steps: seq<Step>)
    requires Lawful(rules) && Open(rules) && IsPut(m) && IsPut(later)
    requires PrintOf(rules, origin.workspace, symbol) == Some(found)
    requires var w := Apply(origin.workspace, m).0;
             PrintOf(rules, w, symbol) == PrintOf(rules, Apply(w, later).0, symbol)
    ensures AllLegal(rules, Start(origin), steps) && AllSweep(rules, Start(origin), steps)
    ensures Run(rules, Start(origin), steps) == AfterPut(OneMore(origin, symbol, m, found), 2, later)
  {
    hide Open, Lawful, PrintOf, Apply, Run, AllLegal, AllSweep, Create, Put, AfterPut, StepsTo, Start, Observe,
      ReadLate, OneMore, ReadNothing, IsPut, IsWorker;
    var d1, d2 := Create(Start(origin), false, 0, true), TwoCreated(origin);
    var d3, d4 := AfterPut(d2, 0, m), ReadLate(origin, symbol, m, found);
    var d5 := OneMore(origin, symbol, m, found);
    var d6 := AfterPut(d5, 2, later);
    CreateLeads(rules, Start(origin));
    CreateLeads(rules, d1);
    EarlyPut(rules, origin, m);
    ReadsIt(rules, origin, symbol, m, found);
    ReadLeads(rules, d3, 1, symbol);
    CreateLeads(rules, d4);
    LatePut(rules, origin, symbol, m, found, later);
    steps := [CREATE, CREATE, Put(rules, d2, 0, m), ReadStep(1, symbol), CREATE, Put(rules, d5, 2, later)];
    RunThrough(rules, [Start(origin), d1, d2, d3, d4, d5, d6], steps);
  }

  lemma NotHeld(rules: Rules, d: Design, symbol: Symbol, found: Fingerprint)
    requires 1 in d.tasks && d.tasks[1].readSet == ReadSet(map[symbol := found], map[])
    requires PrintOf(rules, d.head.workspace, symbol) != Some(found)
    ensures !SymbolHolds(rules, d.tasks[1].readSet, d.head.workspace, symbol)
  {
    hide PrintOf;
  }

  lemma EarlyPut(rules: Rules, origin: Snapshot, m: Mutation)
    requires Lawful(rules) && Open(rules) && IsPut(m)
    ensures var d := TwoCreated(origin); StepsTo(rules, d, Put(rules, d, 0, m), AfterPut(d, 0, m))
  {
    hide Open, Lawful, Told, Apply, Passes, StepsTo, Put, AfterPut, TwoCreated;
    var d := TwoCreated(origin);
    NothingPasses(rules, d.tasks[1], d.head.workspace, m);
    PutNext(rules, d, 0, m);
  }

  lemma LatePut(rules: Rules, origin: Snapshot, symbol: Symbol, m: Mutation, found: Fingerprint, later: Mutation)
    requires Lawful(rules) && Open(rules) && IsPut(later)
    requires var w := Apply(origin.workspace, m).0;
             PrintOf(rules, w, symbol) == PrintOf(rules, Apply(w, later).0, symbol)
    ensures var d := OneMore(origin, symbol, m, found);
            StepsTo(rules, d, Put(rules, d, 2, later), AfterPut(d, 2, later))
  {
    hide Open, Lawful, Told, Apply, StepsTo, Put, AfterPut, OneMore, PrintOf, Create, ReadLate;
    var d := OneMore(origin, symbol, m, found);
    assert Passes(rules, d.tasks[1], d.head.workspace, later);
    hide Passes;
    PutNext(rules, d, 2, later);
  }

  lemma ReadsIt(rules: Rules, origin: Snapshot, symbol: Symbol, m: Mutation, found: Fingerprint)
    requires PrintOf(rules, origin.workspace, symbol) == Some(found)
    ensures 0 in TwoCreated(origin).tasks
    ensures Observe(rules, AfterPut(TwoCreated(origin), 0, m), 1, symbol).0 == ReadLate(origin, symbol, m, found)
  {
    hide PrintOf, Apply;
    assert map[][symbol := found] == map[symbol := found];
  }

  lemma StaleRefused(rules: Rules, task: Task, request: Request, head: Snapshot, symbol: Symbol)
    requires symbol in task.readSet.symbols && !SymbolHolds(rules, task.readSet, head.workspace, symbol)
    ensures !Accepts(rules, task, request, head)
  {
    hide InScope, ReferencesRead, Applied, TargetsHold, SymbolHolds;
  }

  /** Putting a schema changes nothing of how a service is told. */
  lemma ServiceStill(rules: Rules, w: State, service: Id, schema: Id, value: nat)
    ensures PrintOf(rules, w, Shared(Services, service)) ==
            PrintOf(rules, Apply(w, PutShared(Schemas, schema, value)).0, Shared(Services, service))
  {
    var after := Apply(w, PutShared(Schemas, schema, value)).0;
    NodesTell(w, rules.derived(w), Shared(Services, service));
    NodesTell(after, rules.derived(after), Shared(Services, service));
    hide Nodes;
  }
}
