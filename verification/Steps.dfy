/**
 What each step of the engine comes to, told of the states before and after: who runs on and who does
 not, what a token names, and that whatever a task finds it holds from then on, over every run.
 */
module Steps {
  import opened Common
  import opened Proposals
  import opened Patch
  import opened Slices
  import opened Gate
  import opened Engine
  import opened EngineRuns

  /** Everything one read set holds another does too, with the same fingerprints. */
  ghost predicate Within(a: ReadSet, b: ReadSet) {
    && (forall s :: s in a.symbols ==> Get(b.symbols, s) == Some(a.symbols[s]))
    && (forall q :: q in a.queries ==> Get(b.queries, q) == Some(a.queries[q]))
  }

  /** Every task is there still, holding all it held. */
  ghost predicate Remembers(a: map<Id, Task>, b: map<Id, Task>) {
    forall id :: id in a ==> id in b && Within(a[id].readSet, b[id].readSet)
  }

  lemma RemembersOn(a: map<Id, Task>, b: map<Id, Task>, c: map<Id, Task>)
    requires Remembers(a, b) && Remembers(b, c)
    ensures Remembers(a, c)
  {
    forall id | id in a ensures Within(a[id].readSet, c[id].readSet) {
      assert Within(a[id].readSet, b[id].readSet) && Within(b[id].readSet, c[id].readSet);
    }
  }

  lemma SameReads(a: map<Id, Task>, b: map<Id, Task>)
    requires forall id :: id in a ==> id in b && b[id].readSet == a[id].readSet
    ensures Remembers(a, b)
  {
  }

  lemma OneRemembers(tasks: map<Id, Task>, id: Id, more: ReadSet)
    requires id in tasks && Within(tasks[id].readSet, more)
    ensures Remembers(tasks, tasks[id := tasks[id].(readSet := more)])
  {
  }

  lemma ReadRemembers(rules: Rules, origin: Snapshot, d: Design, id: Id, symbol: Symbol)
    requires Sane(rules, origin, d)
    ensures Remembers(d.tasks, Observe(rules, d, id, symbol).0.tasks)
  {
    SameReads(d.tasks, d.tasks);
    hide PrintOf, Sane, Remembers, Within, ReadsHold;
    if id in d.tasks && PrintOf(rules, d.tasks[id].pinned.workspace, symbol).Some? {
      var readSet, w := d.tasks[id].readSet, d.tasks[id].pinned.workspace;
      TaskReads(rules, origin, d, id);
      ReadAgain(rules, readSet, w, symbol);
      OneRemembers(d.tasks, id, readSet.(symbols := readSet.symbols[symbol := PrintOf(rules, w, symbol).value]));
    }
  }

  lemma ReadAgain(rules: Rules, readSet: ReadSet, w: State, symbol: Symbol)
    requires ReadsHold(rules, readSet, w) && PrintOf(rules, w, symbol).Some?
    ensures Within(readSet, readSet.(symbols := readSet.symbols[symbol := PrintOf(rules, w, symbol).value]))
  {
    hide PrintOf;
    assert symbol in readSet.symbols ==> SymbolHolds(rules, readSet, w, symbol);
  }

  lemma AskRemembers(rules: Rules, origin: Snapshot, d: Design, id: Id, query: Query)
    requires Sane(rules, origin, d)
    ensures Remembers(d.tasks, Ask(rules, d, id, query).0.tasks)
  {
    SameReads(d.tasks, d.tasks);
    hide Sane, Remembers, Within, ReadsHold;
    if id in d.tasks {
      var readSet, w := d.tasks[id].readSet, d.tasks[id].pinned.workspace;
      TaskReads(rules, origin, d, id);
      AskAgain(rules, readSet, w, query);
      OneRemembers(d.tasks, id, readSet.(queries := readSet.queries[query := rules.answer(w, query)]));
    }
  }

  lemma AskAgain(rules: Rules, readSet: ReadSet, w: State, query: Query)
    requires ReadsHold(rules, readSet, w)
    ensures Within(readSet, readSet.(queries := readSet.queries[query := rules.answer(w, query)]))
  {
    assert query in readSet.queries ==> QueryHolds(rules, readSet, w, query);
  }

  lemma SpawnRemembers(d: Design, predecessor: Task, installs: bool)
    requires forall id :: id in d.tasks ==> id < d.issued
    ensures Remembers(d.tasks, Spawn(d, predecessor, installs).tasks)
  {
  }

  lemma RollRemembers(d: Design, id: Id, installs: bool)
    requires id in d.tasks && forall other :: other in d.tasks ==> other < d.issued
    ensures Remembers(d.tasks, Roll(d, id, installs).tasks)
  {
    var ended := d.(tasks := d.tasks[id := d.tasks[id].(state := Invalidated)]);
    SameReads(d.tasks, ended.tasks);
    SpawnRemembers(ended, d.tasks[id], installs);
    hide Remembers;
    RemembersOn(d.tasks, ended.tasks, Roll(d, id, installs).tasks);
  }

  lemma {:induction false} RollAllRemembers(d: Design, ids: seq<Id>, fails: set<Id>)
    requires forall id :: id in d.tasks ==> id < d.issued
    ensures var after := RollAll(d, ids, fails);
            Remembers(d.tasks, after.tasks) && forall id :: id in after.tasks ==> id < after.issued
    decreases |ids|
  {
    if ids == [] {
      SameReads(d.tasks, d.tasks);
    } else {
      RollAllRemembers(d, ids[..|ids| - 1], fails);
      var before, id := RollAll(d, ids[..|ids| - 1], fails), ids[|ids| - 1];
      hide Remembers;
      if IsSession(before, id) {
        RollRemembers(before, id, id !in fails);
        RemembersOn(d.tasks, before.tasks, RollAll(d, ids, fails).tasks);
      }
    }
  }

  lemma SweptReads(rules: Rules, tasks: map<Id, Task>, changed: seq<Symbol>, w: State)
    requires Lawful(rules)
    ensures Remembers(tasks, Swept(rules, tasks, changed, w)) && Swept(rules, tasks, changed, w).Keys == tasks.Keys
  {
    hide CausesOf, Lawful;
  }

  lemma PublishRemembers(rules: Rules, d: Design, request: Request, w: State, changed: seq<Symbol>, sweeps: bool,
      installs: bool)
    requires Lawful(rules) && request.task in d.tasks && forall id :: id in d.tasks ==> id < d.issued
    ensures Remembers(d.tasks, Published(rules, d, request, w, changed, sweeps, installs).tasks)
  {
    hide Lawful, Swept, Spawn, Remembers, Within;
    var task := d.tasks[request.task];
    var head := Snapshot(d.head.revision + 1, w);
    var done := d.tasks[request.task := task.(state := Committed)];
    var swept := if sweeps then Swept(rules, done, changed, w) else done;
    var after := d.(head := head, tasks := swept,
                    nonces := d.nonces[(request.task, request.nonce) := head.revision],
                    log := d.log + [Commit(task, request, d.head, head)]);
    SameReads(d.tasks, done);
    SameReads(done, done);
    SweptReads(rules, done, changed, w);
    RemembersOn(d.tasks, done, swept);
    assert swept.Keys == d.tasks.Keys;
    assert forall id :: id in swept.Keys ==> id < d.issued;
    SpawnRemembers(after, task, installs);
    if task.interactive { RemembersOn(d.tasks, swept, Spawn(after, task, installs).tasks); }
  }

  lemma SubmitRemembers(rules: Rules, d: Design, step: Step)
    requires Lawful(rules) && step.SubmitStep? && forall id :: id in d.tasks ==> id < d.issued
    ensures Remembers(d.tasks, Next(rules, d, step).tasks)
  {
    hide Lawful, Published, RefusedTask, WithPatch, Remembers;
    var request, verdict := step.request, step.verdict;
    var (outcome, after) := Submit(rules, d, request, verdict, step.changed, step.stored, step.sweeps, step.installs);
    if verdict.Passed? && outcome.Accepted? && !outcome.replayed {
      PublishRemembers(rules, d, request, verdict.workspace, step.changed, step.sweeps, step.installs);
    } else {
      KeepsReads(rules, d, step);
      SameReads(d.tasks, after.tasks);
    }
  }

  lemma KeepsReads(rules: Rules, d: Design, step: Step)
    requires Lawful(rules) && step.SubmitStep?
    ensures var (outcome, after) :=
              Submit(rules, d, step.request, step.verdict, step.changed, step.stored, step.sweeps, step.installs);
            (outcome.Accepted? ==> outcome.replayed) || !step.verdict.Passed? ==>
              forall id :: id in d.tasks ==> id in after.tasks && after.tasks[id].readSet == d.tasks[id].readSet
  {
    hide Lawful, Published, IsStaleContext, WithPatch;
  }

  lemma AdoptRemembers(rules: Rules, d: Design, w: State, changed: seq<Symbol>, sweeps: bool, sessions: seq<Id>,
      fails: set<Id>)
    requires Lawful(rules) && forall id :: id in d.tasks ==> id < d.issued
    ensures Remembers(d.tasks, Adopt(rules, d, w, changed, sweeps, sessions, fails).tasks)
  {
    hide Lawful, Swept, RollAll, Remembers, Within;
    var head := Snapshot(d.head.revision + 1, w);
    SameReads(d.tasks, d.tasks);
    SweptReads(rules, d.tasks, changed, w);
    var swept := if sweeps then Swept(rules, d.tasks, changed, w) else d.tasks;
    assert swept.Keys == d.tasks.Keys;
    assert forall id :: id in swept.Keys ==> id < d.issued;
    var after := d.(head := head, tasks := swept, log := d.log + [Disk(d.head, head)]);
    RollAllRemembers(after, sessions, fails);
    RemembersOn(d.tasks, swept, RollAll(after, sessions, fails).tasks);
  }

  lemma OthersRemember(rules: Rules, d: Design, step: Step)
    requires Lawful(rules) && (step.CreateStep? || step.FinishStep?) && forall id :: id in d.tasks ==> id < d.issued
    ensures Remembers(d.tasks, Next(rules, d, step).tasks)
  {
    hide Lawful, Remembers;
    SameReads(d.tasks, Next(rules, d, step).tasks);
  }

  /** No step makes a task forget what it has read. */
  lemma NextRemembers(rules: Rules, origin: Snapshot, d: Design, step: Step)
    requires Lawful(rules) && Sane(rules, origin, d)
    ensures Remembers(d.tasks, Next(rules, d, step).tasks)
  {
    hide Lawful, ReadsOwn, MissesOwn, Logged, Leads, Remembers, Within, Observe, Ask, Submit, Adopt, Roll, Create,
      Finish;
    assert forall id :: id in d.tasks ==> id < d.issued;
    SameReads(d.tasks, d.tasks);
    match step
    case CreateStep(_, _, _) => OthersRemember(rules, d, step);
    case ReadStep(id, symbol) => ReadRemembers(rules, origin, d, id, symbol);
    case AskStep(id, query) => AskRemembers(rules, origin, d, id, query);
    case SubmitStep(_, _, _, _, _, _) => SubmitRemembers(rules, d, step);
    case DiskStep(w, changed, sweeps, sessions, fails) => AdoptRemembers(rules, d, w, changed, sweeps, sessions, fails);
    case RefreshStep(id, installs) => if IsSession(d, id) { RollRemembers(d, id, installs); }
    case FinishStep(_, _) => OthersRemember(rules, d, step);
  }

  lemma {:induction false} RunRemembers(rules: Rules, origin: Snapshot, d: Design, steps: seq<Step>)
    requires Lawful(rules) && Sane(rules, origin, d) && AllLegal(rules, d, steps)
    ensures Remembers(d.tasks, Run(rules, d, steps).tasks)
    decreases |steps|
  {
    hide Sane, Next, Legal, Lawful, Remembers;
    if steps == [] {
      SameReads(d.tasks, d.tasks);
    } else {
      var next := Next(rules, d, steps[0]);
      NextSane(rules, origin, d, steps[0]);
      NextRemembers(rules, origin, d, steps[0]);
      RunRemembers(rules, origin, next, steps[1..]);
      RemembersOn(d.tasks, next.tasks, Run(rules, d, steps).tasks);
    }
  }

  /** A run taken up where its first steps left it. */
  lemma {:induction false} RunFrom(rules: Rules, d: Design, steps: seq<Step>, k: nat)
    requires Lawful(rules) && AllLegal(rules, d, steps) && k <= |steps|
    ensures AllLegal(rules, d, steps[..k]) && AllLegal(rules, Run(rules, d, steps[..k]), steps[k..])
    ensures Run(rules, d, steps) == Run(rules, Run(rules, d, steps[..k]), steps[k..])
    decreases |steps|
  {
    hide Next, Legal, Lawful;
    if k > 0 {
      RunFrom(rules, Next(rules, d, steps[0]), steps[1..], k - 1);
      assert steps[..k][1..] == steps[1..][..k - 1] && steps[k..] == steps[1..][k - 1..];
    } else {
      assert steps[0..] == steps;
    }
  }

  /**
   Whatever a task has found in a run it holds to the end of it, and the gate refuses it over every head
   that tells the symbol otherwise.
   */
  lemma FoundBinds(rules: Rules, origin: Snapshot, steps: seq<Step>, k: nat, id: Id, symbol: Symbol)
    requires Lawful(rules) && AllLegal(rules, Start(origin), steps)
    requires k < |steps| && steps[k] == ReadStep(id, symbol)
    requires var d := Run(rules, Start(origin), steps[..k]);
             id in d.tasks && IsActive(d.tasks[id].state) &&
             PrintOf(rules, d.tasks[id].pinned.workspace, symbol).Some?
    ensures var was := Run(rules, Start(origin), steps[..k]).tasks[id];
            var d := Run(rules, Start(origin), steps);
            id in d.tasks &&
            Get(d.tasks[id].readSet.symbols, symbol) == PrintOf(rules, was.pinned.workspace, symbol) &&
            forall request: Request, head: Snapshot ::
              PrintOf(rules, head.workspace, symbol) != PrintOf(rules, was.pinned.workspace, symbol) ==>
                !Accepts(rules, d.tasks[id], request, head)
  {
    var d := Run(rules, Start(origin), steps[..k]);
    var after := ReadAt(rules, origin, steps, k);
    hide Lawful, AllLegal, Run, Accepts, PrintOf, Sane, Observe;
    ReadRecords(rules, d, id, symbol);
    assert Within(after.tasks[id].readSet, Run(rules, Start(origin), steps).tasks[id].readSet);
    var task := Run(rules, Start(origin), steps).tasks[id];
    forall request: Request, head: Snapshot
      | PrintOf(rules, head.workspace, symbol) != PrintOf(rules, d.tasks[id].pinned.workspace, symbol)
      ensures !Accepts(rules, task, request, head)
    {
      Unheld(rules, task, request, head, symbol);
    }
  }

  lemma AnswerBinds(rules: Rules, origin: Snapshot, steps: seq<Step>, k: nat, id: Id, query: Query)
    requires Lawful(rules) && AllLegal(rules, Start(origin), steps)
    requires k < |steps| && steps[k] == AskStep(id, query)
    requires var d := Run(rules, Start(origin), steps[..k]);
             id in d.tasks && IsActive(d.tasks[id].state)
    ensures var was := Run(rules, Start(origin), steps[..k]).tasks[id];
            var d := Run(rules, Start(origin), steps);
            id in d.tasks &&
            Get(d.tasks[id].readSet.queries, query) == Some(rules.answer(was.pinned.workspace, query)) &&
            forall request: Request, head: Snapshot ::
              rules.answer(head.workspace, query) != rules.answer(was.pinned.workspace, query) ==>
                !Accepts(rules, d.tasks[id], request, head)
  {
    var d := Run(rules, Start(origin), steps[..k]);
    var after := ReadAt(rules, origin, steps, k);
    hide Lawful, AllLegal, Run, Accepts, Sane, Ask;
    AskRecords(rules, d, id, query);
    assert Within(after.tasks[id].readSet, Run(rules, Start(origin), steps).tasks[id].readSet);
    var task := Run(rules, Start(origin), steps).tasks[id];
    forall request: Request, head: Snapshot
      | rules.answer(head.workspace, query) != rules.answer(d.tasks[id].pinned.workspace, query)
      ensures !Accepts(rules, task, request, head)
    {
      Unanswered(rules, task, request, head, query);
    }
  }

  /** The engine after one step of a run, whose tasks remember from there on. */
  lemma ReadAt(rules: Rules, origin: Snapshot, steps: seq<Step>, k: nat) returns (after: Design)
    requires Lawful(rules) && AllLegal(rules, Start(origin), steps) && k < |steps|
    ensures after == Next(rules, Run(rules, Start(origin), steps[..k]), steps[k])
    ensures Remembers(after.tasks, Run(rules, Start(origin), steps).tasks)
  {
    hide Sane, Next, Legal, Lawful, Remembers;
    StartSane(rules, origin);
    RunFrom(rules, Start(origin), steps, k);
    RunSane(rules, origin, Start(origin), steps[..k]);
    var d := Run(rules, Start(origin), steps[..k]);
    after := Next(rules, d, steps[k]);
    assert steps[k..][0] == steps[k];
    NextSane(rules, origin, d, steps[k]);
    RunRemembers(rules, origin, after, steps[k..][1..]);
  }

  lemma Unheld(rules: Rules, task: Task, request: Request, head: Snapshot, symbol: Symbol)
    requires Get(task.readSet.symbols, symbol).Some?
    requires PrintOf(rules, head.workspace, symbol) != Get(task.readSet.symbols, symbol)
    ensures !Accepts(rules, task, request, head)
  {
    hide PrintOf, InScope, ReferencesRead, Applied, TargetsHold;
    assert !SymbolHolds(rules, task.readSet, head.workspace, symbol);
  }

  lemma Unanswered(rules: Rules, task: Task, request: Request, head: Snapshot, query: Query)
    requires Get(task.readSet.queries, query).Some?
    requires Some(rules.answer(head.workspace, query)) != Get(task.readSet.queries, query)
    ensures !Accepts(rules, task, request, head)
  {
    hide InScope, ReferencesRead, Applied, TargetsHold;
    assert !QueryHolds(rules, task.readSet, head.workspace, query);
  }

  /** Whether a refusal is for what has changed since the task's snapshot, and not for what its patch asks. */
  ghost predicate StaleContext(rules: Rules, task: Task, request: Request, head: Snapshot) {
    || request.base != task.pinned.revision
    || (InScope(rules, task.scope, request.patch) &&
        !(ReadsHold(rules, task.readSet, head.workspace) &&
          TargetsHold(rules, request.patch, task.pinned.workspace, head.workspace)))
  }

  /** What a refused worker is told: what of its context has changed, if anything it saw or writes has. */
  ghost predicate ToldWhy(rules: Rules, task: Task, request: Request, head: Snapshot, causes: seq<Cause>) {
    var w := head.workspace;
    if request.base != task.pinned.revision then causes == []
    else if !SymbolsHold(rules, task.readSet, w) then
      && |causes| == 1 && OfSymbol(causes[0]) && causes[0].symbol in task.readSet.symbols
      && !SymbolHolds(rules, task.readSet, w, causes[0].symbol)
      && (causes[0].RemovedSymbol? <==> PrintOf(rules, w, causes[0].symbol) == None)
    else if !QueriesHold(rules, task.readSet, w) then
      || (|causes| == 1 && causes[0].ChangedQuery? && !QueryHolds(rules, task.readSet, w, causes[0].query))
      || (causes == [] && exists q: Query :: q.Search? && !QueryHolds(rules, task.readSet, w, q))
    else
      && |causes| == 1 && causes[0].ChangedSymbol? && causes[0].symbol in Footprints(request.patch)
      && PrintOf(rules, task.pinned.workspace, causes[0].symbol) != PrintOf(rules, w, causes[0].symbol)
  }

  /**
   A refused worker is over exactly when its context is stale, and then keeps its patch in its note and is
   told what changed; any other refused task, a session always, runs on as it was. Nothing else moves.
   */
  lemma RefusalEnds(rules: Rules, d: Design, request: Request, rejection: Rejection, changed: seq<Symbol>,
      persists: bool, sweeps: bool, installs: bool)
    requires Lawful(rules) && request.task in d.tasks && d.tasks[request.task].state.Running?
    requires (request.task, request.nonce) !in d.nonces
    requires Answers(rules, d.tasks[request.task], request, d.head, Refused(rejection))
    ensures var (outcome, after) := Submit(rules, d, request, Refused(rejection), changed, persists, sweeps, installs);
            var was := d.tasks[request.task];
            && outcome == Rejected(rejection)
            && request.task in after.tasks
            && var now := after.tasks[request.task];
               && after == d.(tasks := d.tasks[request.task := now])
               && if !was.interactive && StaleContext(rules, was, request, d.head) then
                    && now == was.(state := Invalidated, note := now.note)
                    && now.note.Some? && now.note.value.rejected == Some(request.patch)
                    && ToldWhy(rules, was, request, d.head, now.note.value.causes)
                  else now == was
  {
    var task := d.tasks[request.task];
    StaleIff(rules, task, request, d.head, rejection);
    if IsStaleContext(rejection) { CausesTold(rules, task, request, d.head, rejection); }
    hide Lawful, StaleContext, Explains, IsStaleContext, RejectionCauses, ToldWhy, Answers;
  }

  lemma StaleIff(rules: Rules, task: Task, request: Request, head: Snapshot, rejection: Rejection)
    requires !Accepts(rules, task, request, head) && Explains(rules, task, request, head, rejection)
    ensures IsStaleContext(rejection) <==> StaleContext(rules, task, request, head)
  {
    hide SymbolsHold, QueriesHold, TargetsHold, ReferencesRead, Applied, InScope;
  }

  lemma CausesTold(rules: Rules, task: Task, request: Request, head: Snapshot, rejection: Rejection)
    requires !Accepts(rules, task, request, head) && Explains(rules, task, request, head, rejection)
    requires IsStaleContext(rejection)
    ensures ToldWhy(rules, task, request, head, RejectionCauses(rejection))
  {
    hide SymbolsHold, QueriesHold, TargetsHold, ReferencesRead, Applied, InScope, PrintOf;
  }

  /** A commit the store does not take leaves the task running as it was. */
  lemma StoreRefusalKeeps(rules: Rules, d: Design, request: Request, w: State, changed: seq<Symbol>, sweeps: bool,
      installs: bool)
    requires Lawful(rules) && request.task in d.tasks && d.tasks[request.task].state.Running?
    requires (request.task, request.nonce) !in d.nonces
    ensures Submit(rules, d, request, Passed(w), changed, false, sweeps, installs) ==
            (Rejected(DraftValidationFailed), d)
  {
    hide Lawful;
    assert d.tasks[request.task := d.tasks[request.task]] == d.tasks;
  }

  /** A worker invalidated before it submits keeps in its note why, and the first patch it then submits. */
  lemma LatePatchKept(rules: Rules, d: Design, request: Request, verdict: Verdict, changed: seq<Symbol>,
      persists: bool, sweeps: bool, installs: bool)
    requires Lawful(rules) && request.task in d.tasks && d.tasks[request.task].state.Invalidated?
    requires (request.task, request.nonce) !in d.nonces
    ensures var (outcome, after) := Submit(rules, d, request, verdict, changed, persists, sweeps, installs);
            var was := d.tasks[request.task];
            && outcome == Rejected(TaskInvalidated)
            && request.task in after.tasks
            && var now := after.tasks[request.task];
               && after == d.(tasks := d.tasks[request.task := now]) && now == was.(note := now.note)
               && now.note.Some?
               && now.note.value.causes == (if was.note.Some? then was.note.value.causes else [])
               && now.note.value.rejected == (if was.note.Some? && was.note.value.rejected.Some?
                                              then was.note.value.rejected else Some(request.patch))
  {
    hide Lawful;
  }

  /** The sweep ends just the running workers that something tells against, and tells them all of it. */
  lemma SweepEnds(rules: Rules, task: Task, changed: seq<Symbol>, w: State)
    requires Lawful(rules)
    ensures var now := SweptTask(rules, task, changed, w);
            if task.state == Running && !task.interactive &&
               exists cause :: Tells(rules, task.readSet, changed, w, cause) then
              && now == task.(state := Invalidated, note := now.note)
              && now.note.Some? && now.note.value.rejected.None?
              && (forall c :: c in now.note.value.causes <==> Tells(rules, task.readSet, changed, w, c))
              && CausesAscend(rules, now.note.value.causes)
            else now == task
  {
    CausesTell(rules, task.readSet, changed, w);
    hide Lawful, Tells, CausesOf, CausesAscend;
    var causes := CausesOf(rules, task.readSet, changed, w);
    if causes != [] { assert causes[0] in causes; }
  }

  /** Whether a session's token names a new running task at the head, with its scope and nothing read. */
  ghost predicate GoesOn(before: Design, after: Design, task: Task) {
    && task.token in after.tokens
    && var next := after.tokens[task.token];
       && next !in before.tasks && next in after.tasks
       && after.tasks[next] == Task(task.token, true, task.scope, after.head, Running, ReadSet(map[], map[]), None)
  }

  /** A commit published: the next revision, logged under its nonce, its task over; a session goes on at the head. */
  lemma CommitDoes(rules: Rules, d: Design, request: Request, w: State, changed: seq<Symbol>, sweeps: bool,
      installs: bool)
    requires Lawful(rules) && Holding(d) && request.task in d.tasks && d.tasks[request.task].state.Running?
    requires (request.task, request.nonce) !in d.nonces
    ensures var (outcome, after) := Submit(rules, d, request, Passed(w), changed, true, sweeps, installs);
            var was := d.tasks[request.task];
            && outcome == Accepted(d.head.revision + 1, false)
            && after.head == Snapshot(d.head.revision + 1, w)
            && after.nonces == d.nonces[(request.task, request.nonce) := d.head.revision + 1]
            && after.log == d.log + [Commit(was, request, d.head, after.head)] && after.missed == d.missed
            && d.tasks.Keys <= after.tasks.Keys
            && after.tasks[request.task] == was.(state := Committed)
            && (forall id :: id in d.tasks && id != request.task ==>
                  after.tasks[id] == if sweeps then SweptTask(rules, d.tasks[id], changed, w) else d.tasks[id])
            && if was.interactive && installs then GoesOn(d, after, was)
               else after.tokens == d.tokens && after.tasks.Keys == d.tasks.Keys
  {
    hide Lawful, SweptTask;
    var was := d.tasks[request.task];
    var done := d.tasks[request.task := was.(state := Committed)];
    CommittedSwept(rules, was.(state := Committed), changed, w);
  }

  lemma CommittedSwept(rules: Rules, task: Task, changed: seq<Symbol>, w: State)
    requires Lawful(rules) && task.state == Committed
    ensures SweptTask(rules, task, changed, w) == task
  {
    hide CausesOf, Lawful;
  }

  /** A created task runs at the head under a token of its own, with nothing read; if not stored, there is none. */
  lemma CreateDoes(d: Design, interactive: bool, scope: Scope, persists: bool)
    requires Holding(d) && forall t :: t in d.tokens ==> t < d.issued
    ensures var after := Create(d, interactive, scope, persists);
            && after == d.(tasks := after.tasks, tokens := after.tokens, issued := after.issued)
            && exists token :: token !in d.tokens && after.tokens.Keys == d.tokens.Keys + {token} &&
                 (forall t :: t in d.tokens ==> after.tokens[t] == d.tokens[t]) &&
                 var id := after.tokens[token];
                 id !in d.tasks &&
                 after.tasks == if !persists then d.tasks else
                   d.tasks[id := Task(token, interactive, scope, d.head, Running, ReadSet(map[], map[]), None)]
  {
    assert d.issued !in d.tokens && d.issued !in d.tasks;
    var after := Create(d, interactive, scope, persists);
    assert after.tokens.Keys == d.tokens.Keys + {d.issued};
  }

  /** A task finished is over as reported and no token names it any more; one that may not be is left alone. */
  lemma FinishDoes(d: Design, id: Id, outcome: TaskState)
    ensures var after := Finish(d, id, outcome);
            if id in d.tasks && d.tasks[id].state in {Running, Committing, Committed} then
              && after == d.(tasks := d.tasks[id := d.tasks[id].(state := outcome)], tokens := after.tokens)
              && (forall t :: t in after.tokens <==> t in d.tokens && d.tokens[t] != id)
              && (forall t :: t in after.tokens ==> after.tokens[t] == d.tokens[t])
            else after == d
  {
  }
}
