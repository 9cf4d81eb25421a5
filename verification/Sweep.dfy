/**
 What the sweep is worth over a run: as long as no worker reads what has gone stale already, the
 workers it leaves running are just those whose reads the gate would pass.
 */
module Sweep {
  import opened Common
  import opened Proposals
  import opened Patch
  import opened Slices
  import opened Gate
  import opened Engine
  import opened EngineRuns

  /** What the sweep looks at: a running task that is no session. */
  predicate IsWorker(task: Task) {
    task.state.Running? && !task.interactive
  }

  /** Everything the running workers have observed holds at the head. */
  ghost predicate Fresh(rules: Rules, d: Design) {
    forall id :: id in d.tasks && IsWorker(d.tasks[id]) ==> ReadsHold(rules, d.tasks[id].readSet, d.head.workspace)
  }

  /** A worker observes what its snapshot holds and the head holds no more. */
  predicate ReadsStale(rules: Rules, d: Design, step: Step) {
    match step
    case ReadStep(id, symbol) =>
      && id in d.tasks && IsWorker(d.tasks[id])
      && PrintOf(rules, d.tasks[id].pinned.workspace, symbol).Some?
      && PrintOf(rules, d.tasks[id].pinned.workspace, symbol) != PrintOf(rules, d.head.workspace, symbol)
    case AskStep(id, query) =>
      && id in d.tasks && IsWorker(d.tasks[id])
      && rules.answer(d.tasks[id].pinned.workspace, query) != rules.answer(d.head.workspace, query)
    case _ => false
  }

  /** What publishes sweeps, over just the symbols that differ, as every commit and adoption does. */
  ghost predicate Sweeps(rules: Rules, d: Design, step: Step)
    requires Lawful(rules)
  {
    match step
    case SubmitStep(request, verdict, changed, stored, sweeps, installs) =>
      var outcome := Submit(rules, d, request, verdict, changed, stored, sweeps, installs).0;
      verdict.Passed? && outcome.Accepted? && !outcome.replayed ==>
        sweeps && Differing(rules, d.head.workspace, verdict.workspace, changed)
    case DiskStep(w, changed, sweeps, _, _) => sweeps && Differing(rules, d.head.workspace, w, changed)
    case _ => true
  }

  /** Every worker running is new, or was running before and has observed no more. */
  ghost predicate NoMoreRead(a: map<Id, Task>, b: map<Id, Task>) {
    forall id :: id in b && IsWorker(b[id]) ==>
      b[id].readSet == NOTHING_READ || (id in a && IsWorker(a[id]) && b[id].readSet == a[id].readSet)
  }

  lemma FreshStill(rules: Rules, a: Design, b: Design)
    requires Fresh(rules, a) && b.head.workspace == a.head.workspace && NoMoreRead(a.tasks, b.tasks)
    ensures Fresh(rules, b)
  {
    NothingHolds(rules, b.head.workspace);
    hide ReadsHold;
  }

  lemma SpawnReads(d: Design, predecessor: Task, installs: bool)
    ensures NoMoreRead(d.tasks, Spawn(d, predecessor, installs).tasks)
  {
  }

  lemma RollReads(d: Design, id: Id, installs: bool)
    requires id in d.tasks
    ensures NoMoreRead(d.tasks, Roll(d, id, installs).tasks) && Roll(d, id, installs).head == d.head
  {
    var ended := d.(tasks := d.tasks[id := d.tasks[id].(state := Invalidated)]);
    assert NoMoreRead(d.tasks, ended.tasks);
    SpawnReads(ended, d.tasks[id], installs);
  }

  lemma {:induction false} RollAllReads(d: Design, ids: seq<Id>, fails: set<Id>)
    ensures NoMoreRead(d.tasks, RollAll(d, ids, fails).tasks) && RollAll(d, ids, fails).head == d.head
  {
    if ids != [] {
      var before, id := RollAll(d, ids[..|ids| - 1], fails), ids[|ids| - 1];
      RollAllReads(d, ids[..|ids| - 1], fails);
      if IsSession(before, id) { RollReads(before, id, id !in fails); }
      hide Roll;
    }
  }

  /** Of workers whose reads held at the old head, the sweep leaves running just those whose reads hold at the new. */
  lemma SurvivesIffHolds(rules: Rules, d: Design, changed: seq<Symbol>, w: State, id: Id)
    requires Lawful(rules) && Fresh(rules, d) && Differing(rules, d.head.workspace, w, changed)
    requires id in d.tasks && IsWorker(d.tasks[id])
    ensures IsWorker(SweptTask(rules, d.tasks[id], changed, w)) <==> ReadsHold(rules, d.tasks[id].readSet, w)
  {
    var readSet := d.tasks[id].readSet;
    assert HeldUnlessChanged(rules, readSet, changed, d.head.workspace) by {
      assert ReadsHold(rules, readSet, d.head.workspace);
    }
    hide CausesOf, ReadsHold, Differing, HeldUnlessChanged, Lawful, Fresh;
    SweepRefines(rules, readSet, changed, d.head.workspace, w);
  }

  /** So all that run after a sweep are fresh at the head swept for. */
  lemma SweptFresh(rules: Rules, d: Design, tasks: map<Id, Task>, changed: seq<Symbol>, w: State, after: Design)
    requires Lawful(rules) && Fresh(rules, d) && Differing(rules, d.head.workspace, w, changed)
    requires NoMoreRead(d.tasks, tasks)
    requires after.head.workspace == w && after.tasks == Swept(rules, tasks, changed, w)
    ensures Fresh(rules, after)
  {
    var before := d.(tasks := tasks);
    FreshStill(rules, d, before);
    hide CausesOf, ReadsHold, Differing, NoMoreRead, Lawful;
    forall id | id in after.tasks && IsWorker(after.tasks[id]) ensures ReadsHold(rules, after.tasks[id].readSet, w) {
      SurvivesIffHolds(rules, before, changed, w, id);
    }
  }

  lemma PublishFresh(rules: Rules, d: Design, request: Request, w: State, changed: seq<Symbol>, installs: bool)
    requires Lawful(rules) && Fresh(rules, d) && Differing(rules, d.head.workspace, w, changed)
    requires request.task in d.tasks
    ensures Fresh(rules, Published(rules, d, request, w, changed, true, installs))
  {
    hide ReadsHold, Differing, Lawful, Swept, Fresh, SweptTask;
    var task := d.tasks[request.task];
    var head := Snapshot(d.head.revision + 1, w);
    var done := d.tasks[request.task := task.(state := Committed)];
    var after := d.(head := head, tasks := Swept(rules, done, changed, w),
                    nonces := d.nonces[(request.task, request.nonce) := head.revision],
                    log := d.log + [Commit(task, request, d.head, head)]);
    SweptFresh(rules, d, done, changed, w, after);
    SpawnReads(after, task, installs);
    if task.interactive { FreshStill(rules, after, Spawn(after, task, installs)); }
  }

  lemma AdoptFresh(rules: Rules, d: Design, w: State, changed: seq<Symbol>, sessions: seq<Id>, fails: set<Id>)
    requires Lawful(rules) && Fresh(rules, d) && Differing(rules, d.head.workspace, w, changed)
    ensures Fresh(rules, Adopt(rules, d, w, changed, true, sessions, fails))
  {
    hide ReadsHold, Differing, Lawful, Swept, Fresh, SweptTask, RollAll;
    var head := Snapshot(d.head.revision + 1, w);
    var after := d.(head := head, tasks := Swept(rules, d.tasks, changed, w), log := d.log + [Disk(d.head, head)]);
    SweptFresh(rules, d, d.tasks, changed, w, after);
    RollAllReads(after, sessions, fails);
    FreshStill(rules, after, RollAll(after, sessions, fails));
  }

  lemma SubmitFresh(rules: Rules, d: Design, step: Step)
    requires Lawful(rules) && Fresh(rules, d) && step.SubmitStep? && Sweeps(rules, d, step)
    ensures Fresh(rules, Next(rules, d, step))
  {
    hide ReadsHold, Differing, Lawful, Published, Fresh;
    var request, verdict := step.request, step.verdict;
    var (outcome, after) :=
      Submit(rules, d, request, verdict, step.changed, step.stored, step.sweeps, step.installs);
    if verdict.Passed? && outcome.Accepted? && !outcome.replayed {
      PublishFresh(rules, d, request, verdict.workspace, step.changed, step.installs);
    } else {
      Unpublished(rules, d, step);
      FreshStill(rules, d, after);
    }
  }

  /** A submission that publishes nothing lets no worker observe more. */
  lemma Unpublished(rules: Rules, d: Design, step: Step)
    requires Lawful(rules) && step.SubmitStep?
    ensures var (outcome, after) :=
              Submit(rules, d, step.request, step.verdict, step.changed, step.stored, step.sweeps, step.installs);
            (outcome.Accepted? ==> outcome.replayed) || !step.verdict.Passed? ==>
              after.head == d.head && NoMoreRead(d.tasks, after.tasks)
  {
    hide Lawful, Published, IsStaleContext, WithPatch;
  }

  lemma WorkerFresh(rules: Rules, d: Design, id: Id)
    requires Fresh(rules, d) && id in d.tasks && IsWorker(d.tasks[id])
    ensures ReadsHold(rules, d.tasks[id].readSet, d.head.workspace)
  {
    hide ReadsHold;
  }

  /** What one worker has observed decides whether all stay fresh. */
  lemma MoreFresh(rules: Rules, d: Design, id: Id, more: ReadSet)
    requires Fresh(rules, d) && id in d.tasks && IsWorker(d.tasks[id])
    ensures Fresh(rules, d.(tasks := d.tasks[id := d.tasks[id].(readSet := more)])) <==>
            ReadsHold(rules, more, d.head.workspace)
  {
    hide ReadsHold;
    var after := d.tasks[id := d.tasks[id].(readSet := more)];
    assert IsWorker(after[id]);
    assert forall other :: other in d.tasks && other != id ==> after[other] == d.tasks[other];
  }

  /** A read of a worker leaves it fresh exactly when what it finds is what the head holds. */
  lemma ReadFresh(rules: Rules, d: Design, id: Id, symbol: Symbol)
    requires Fresh(rules, d)
    ensures Fresh(rules, Observe(rules, d, id, symbol).0) <==> !ReadsStale(rules, d, ReadStep(id, symbol))
  {
    hide PrintOf, ReadsHold, Fresh;
    if id in d.tasks && IsWorker(d.tasks[id]) && PrintOf(rules, d.tasks[id].pinned.workspace, symbol).Some? {
      var task := d.tasks[id];
      var found := PrintOf(rules, task.pinned.workspace, symbol);
      WorkerFresh(rules, d, id);
      OneFound(rules, d.head.workspace, task.readSet, symbol, found.value);
      MoreFresh(rules, d, id, task.readSet.(symbols := task.readSet.symbols[symbol := found.value]));
    } else {
      FreshStill(rules, d, Observe(rules, d, id, symbol).0);
    }
  }

  lemma AskFresh(rules: Rules, d: Design, id: Id, query: Query)
    requires Fresh(rules, d)
    ensures Fresh(rules, Ask(rules, d, id, query).0) <==> !ReadsStale(rules, d, AskStep(id, query))
  {
    hide ReadsHold, Fresh;
    if id in d.tasks && IsWorker(d.tasks[id]) {
      var task := d.tasks[id];
      var found := rules.answer(task.pinned.workspace, query);
      WorkerFresh(rules, d, id);
      OneAnswer(rules, d.head.workspace, task.readSet, query, found);
      MoreFresh(rules, d, id, task.readSet.(queries := task.readSet.queries[query := found]));
    } else {
      FreshStill(rules, d, Ask(rules, d, id, query).0);
    }
  }

  lemma OneFound(rules: Rules, w: State, readSet: ReadSet, symbol: Symbol, found: Fingerprint)
    requires ReadsHold(rules, readSet, w)
    ensures ReadsHold(rules, readSet.(symbols := readSet.symbols[symbol := found]), w) <==>
            PrintOf(rules, w, symbol) == Some(found)
  {
    hide PrintOf;
    var more := readSet.(symbols := readSet.symbols[symbol := found]);
    forall s | s in readSet.symbols && s != symbol ensures SymbolHolds(rules, more, w, s) {
      assert SymbolHolds(rules, readSet, w, s);
    }
    forall q | q in readSet.queries ensures QueryHolds(rules, more, w, q) {
      assert QueryHolds(rules, readSet, w, q);
    }
    assert SymbolHolds(rules, more, w, symbol) <==> PrintOf(rules, w, symbol) == Some(found);
  }

  lemma OneAnswer(rules: Rules, w: State, readSet: ReadSet, query: Query, found: nat)
    requires ReadsHold(rules, readSet, w)
    ensures ReadsHold(rules, readSet.(queries := readSet.queries[query := found]), w) <==>
            rules.answer(w, query) == found
  {
    hide PrintOf;
    var more := readSet.(queries := readSet.queries[query := found]);
    forall s | s in readSet.symbols ensures SymbolHolds(rules, more, w, s) {
      assert SymbolHolds(rules, readSet, w, s);
    }
    forall q | q in readSet.queries && q != query ensures QueryHolds(rules, more, w, q) {
      assert QueryHolds(rules, readSet, w, q);
    }
    assert QueryHolds(rules, more, w, query) <==> rules.answer(w, query) == found;
  }

  /** One step keeps every worker fresh exactly when it is no stale read. */
  lemma NextFresh(rules: Rules, d: Design, step: Step)
    requires Lawful(rules) && Fresh(rules, d) && Legal(rules, d, step) && Sweeps(rules, d, step)
    ensures Fresh(rules, Next(rules, d, step)) <==> !ReadsStale(rules, d, step)
  {
    hide ReadsHold, Differing, Lawful, Fresh, Submit, Adopt, Observe, Ask, PrintOf, Answers, Roll;
    match step
    case ReadStep(id, symbol) => ReadFresh(rules, d, id, symbol);
    case AskStep(id, query) => AskFresh(rules, d, id, query);
    case SubmitStep(_, _, _, _, _, _) => SubmitFresh(rules, d, step);
    case DiskStep(w, changed, _, sessions, fails) => AdoptFresh(rules, d, w, changed, sessions, fails);
    case CreateStep(interactive, scope, persists) => FreshStill(rules, d, Create(d, interactive, scope, persists));
    case RefreshStep(id, installs) =>
      if IsSession(d, id) { RollReads(d, id, installs); }
      FreshStill(rules, d, Refresh(d, id, installs));
    case FinishStep(id, outcome) => FreshStill(rules, d, Finish(d, id, outcome));
  }

  ghost predicate AllSweep(rules: Rules, d: Design, steps: seq<Step>)
    requires Lawful(rules)
    decreases |steps|
  {
    steps == [] || (Sweeps(rules, d, steps[0]) && AllSweep(rules, Next(rules, d, steps[0]), steps[1..]))
  }

  ghost predicate NoneReadsStale(rules: Rules, d: Design, steps: seq<Step>)
    requires Lawful(rules)
    decreases |steps|
  {
    steps == [] || (!ReadsStale(rules, d, steps[0]) && NoneReadsStale(rules, Next(rules, d, steps[0]), steps[1..]))
  }

  ghost predicate FreshThroughout(rules: Rules, d: Design, steps: seq<Step>)
    requires Lawful(rules)
    decreases |steps|
  {
    Fresh(rules, d) && (steps == [] || FreshThroughout(rules, Next(rules, d, steps[0]), steps[1..]))
  }

  /**
   Over every run in which what publishes sweeps, the workers running hold at every head only what the
   gate would pass, exactly when none of them reads, from its own snapshot, what is stale already.
   */
  lemma RunFresh(rules: Rules, origin: Snapshot, steps: seq<Step>)
    requires Lawful(rules) && AllLegal(rules, Start(origin), steps) && AllSweep(rules, Start(origin), steps)
    ensures FreshThroughout(rules, Start(origin), steps) <==> NoneReadsStale(rules, Start(origin), steps)
  {
    assert Fresh(rules, Start(origin));
    FreshOn(rules, Start(origin), steps);
  }

  lemma {:induction false} FreshOn(rules: Rules, d: Design, steps: seq<Step>)
    requires Lawful(rules) && Fresh(rules, d) && AllLegal(rules, d, steps) && AllSweep(rules, d, steps)
    ensures FreshThroughout(rules, d, steps) <==> NoneReadsStale(rules, d, steps)
    decreases |steps|
  {
    hide Fresh, Legal, Sweeps, Next, ReadsStale, Lawful;
    if steps != [] {
      NextFresh(rules, d, steps[0]);
      if Fresh(rules, Next(rules, d, steps[0])) { FreshOn(rules, Next(rules, d, steps[0]), steps[1..]); }
    }
  }
}
