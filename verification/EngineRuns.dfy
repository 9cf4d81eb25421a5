/**
 What every run of the engine keeps, and what follows of its commits: they are serializable, each task
 commits at most once, a repeated submission answers with its one revision, and a session has at most
 one running task.
 */
module EngineRuns {
  import opened Common
  import Program
  import opened Proposals
  import opened Patch
  import opened Slices
  import opened Gate
  import opened Engine

  type Id = Program.Id

  /**
   Ids and tokens are issued before they are held, nothing is pinned past the head, and a running task holds its token.
   */
  ghost predicate Owned(d: Design) {
    && Holding(d)
    && (forall id :: id in d.tasks ==> d.tasks[id].token < d.issued && d.tasks[id].pinned.revision <= d.head.revision)
    && (forall t :: t in d.tokens ==> t < d.issued && d.tokens[t] < d.issued)
  }

  /** Everything a task has recorded is what its own snapshot says. */
  ghost predicate ReadsOwn(rules: Rules, tasks: map<Id, Task>) {
    forall id :: id in tasks ==> ReadsHold(rules, tasks[id].readSet, tasks[id].pinned.workspace)
  }

  /** Everything a task has looked for and missed, its own snapshot lacks. */
  ghost predicate MissesOwn(rules: Rules, d: Design) {
    forall id :: id in d.missed ==> id in d.tasks && Misses(rules, d.missed[id], d.tasks[id].pinned.workspace)
  }

  predicate IsCommit(e: Entry, key: (Id, nat), revision: nat) {
    e.Commit? && e.request.task == key.0 && e.request.nonce == key.1 && e.result.revision == revision
  }

  ghost predicate CommitIn(log: seq<Entry>, key: (Id, nat), revision: nat) {
    exists i :: 0 <= i < |log| && IsCommit(log[i], key, revision)
  }

  /** The nonces are just the commits', each by a task that is spent, and no task commits twice. */
  ghost predicate Logged(d: Design) {
    && (forall key :: key in d.nonces ==> CommitIn(d.log, key, d.nonces[key]))
    && (forall i :: 0 <= i < |d.log| && d.log[i].Commit? ==> Remembered(d, d.log[i]))
    && (forall i, j :: 0 <= i < j < |d.log| && d.log[i].Commit? && d.log[j].Commit? ==>
         d.log[i].request.task != d.log[j].request.task)
  }

  predicate Remembered(d: Design, e: Entry)
    requires e.Commit?
  {
    && Get(d.nonces, (e.request.task, e.request.nonce)) == Some(e.result.revision)
    && e.request.task in d.tasks && Spent(d.tasks[e.request.task].state) &&
         d.tasks[e.request.task].pinned == e.task.pinned
  }

  /** An entry makes the next revision of its parent, and a commit's is what the gate accepted there. */
  ghost predicate EntryHolds(rules: Rules, e: Entry) {
    && e.result.revision == e.parent.revision + 1
    && (e.Commit? ==>
          Accepts(rules, e.task, e.request, e.parent) &&
          Applied(rules, e.parent.workspace, e.request.patch) == Some(e.result.workspace) &&
          ReadsHold(rules, e.task.readSet, e.task.pinned.workspace))
  }

  /** The log leads from the first head to the last, entry by entry. */
  ghost predicate Leads(rules: Rules, origin: Snapshot, log: seq<Entry>, head: Snapshot) {
    if log == [] then head == origin
    else log[|log| - 1].result == head && EntryHolds(rules, log[|log| - 1]) &&
         Leads(rules, origin, log[..|log| - 1], log[|log| - 1].parent)
  }

  ghost predicate Sane(rules: Rules, origin: Snapshot, d: Design) {
    Owned(d) && ReadsOwn(rules, d.tasks) && MissesOwn(rules, d) && Logged(d) && Leads(rules, origin, d.log, d.head)
  }

  /** One task's step: it keeps its session, scope and snapshot, and never runs, or is unspent, again. */
  ghost predicate Advances(rules: Rules, a: Task, b: Task) {
    && b.token == a.token && b.interactive == a.interactive && b.scope == a.scope && b.pinned == a.pinned
    && ReadsHold(rules, b.readSet, b.pinned.workspace)
    && (b.state.Running? ==> a.state.Running?)
    && (Spent(a.state) ==> Spent(b.state))
  }

  ghost predicate AllAdvance(rules: Rules, a: map<Id, Task>, b: map<Id, Task>) {
    a.Keys == b.Keys && forall id :: id in a ==> Advances(rules, a[id], b[id])
  }

  /** The log stays in order through what records nothing and leaves spent tasks spent. */
  lemma LoggedStill(a: Design, b: Design)
    requires Logged(a) && b.nonces == a.nonces && b.log == a.log
    requires forall id :: id in a.tasks ==>
                            id in b.tasks && b.tasks[id].pinned == a.tasks[id].pinned &&
                            (Spent(a.tasks[id].state) ==> Spent(b.tasks[id].state))
    ensures Logged(b)
  {
    hide CommitIn;
    forall i | 0 <= i < |b.log| && b.log[i].Commit? ensures Remembered(b, b.log[i]) {
      assert Remembered(a, a.log[i]);
    }
  }

  /** What was missed is still lacking at the snapshots of tasks that keep theirs. */
  lemma MissesStill(rules: Rules, a: Design, b: Design)
    requires MissesOwn(rules, a) && b.missed == a.missed
    requires forall id :: id in a.tasks ==> id in b.tasks && b.tasks[id].pinned == a.tasks[id].pinned
    ensures MissesOwn(rules, b)
  {
    hide Misses;
  }

  lemma TasksAdvance(rules: Rules, origin: Snapshot, d: Design, tasks: map<Id, Task>)
    requires Sane(rules, origin, d) && AllAdvance(rules, d.tasks, tasks)
    ensures Sane(rules, origin, d.(tasks := tasks))
  {
    hide Leads, ReadsHold, Logged, MissesOwn;
    assert forall id :: id in d.tasks ==> Advances(rules, d.tasks[id], tasks[id]);
    LoggedStill(d, d.(tasks := tasks));
    MissesStill(rules, d, d.(tasks := tasks));
  }

  lemma OneAdvances(rules: Rules, origin: Snapshot, d: Design, id: Id, task: Task)
    requires Sane(rules, origin, d) && id in d.tasks && Advances(rules, d.tasks[id], task)
    ensures Sane(rules, origin, d.(tasks := d.tasks[id := task]))
    ensures AllAdvance(rules, d.tasks, d.tasks[id := task])
  {
    hide ReadsHold;
    forall other | other in d.tasks ensures Advances(rules, d.tasks[other], d.tasks[id := task][other]) {
      assert ReadsHold(rules, d.tasks[other].readSet, d.tasks[other].pinned.workspace);
    }
    TasksAdvance(rules, origin, d, d.tasks[id := task]);
  }

  /** A task is installed under a token no running task holds, and takes it. */
  lemma InstallSane(rules: Rules, origin: Snapshot, d: Design, token: Id, interactive: bool, scope: Scope)
    requires Sane(rules, origin, d) && token <= d.issued
    requires forall id :: id in d.tasks && d.tasks[id].state.Running? ==> d.tasks[id].token != token
    ensures Sane(rules, origin, Install(d, token, interactive, scope).(tokens := d.tokens[token := d.issued]))
  {
    hide Leads, Logged, MissesOwn, Owned, ReadsHold;
    var after := Install(d, token, interactive, scope).(tokens := d.tokens[token := d.issued]);
    InstallOwned(d, token, interactive, scope);
    assert forall id :: id in d.tasks ==> id < d.issued by { IssuedBefore(d); }
    LoggedStill(d, after);
    MissesStill(rules, d, after);
    NothingHolds(rules, d.head.workspace);
  }

  lemma IssuedBefore(d: Design)
    requires Owned(d)
    ensures forall id :: id in d.tasks ==> id < d.issued
  {
  }

  lemma InstallOwned(d: Design, token: Id, interactive: bool, scope: Scope)
    requires Owned(d) && token <= d.issued
    requires forall id :: id in d.tasks && d.tasks[id].state.Running? ==> d.tasks[id].token != token
    ensures Owned(Install(d, token, interactive, scope).(tokens := d.tokens[token := d.issued]))
  {
  }

  lemma OwnedStill(a: Design, b: Design)
    requires Owned(a) && b.tasks == a.tasks && b.tokens == a.tokens && b.issued == a.issued
    requires a.head.revision <= b.head.revision
    ensures Owned(b)
  {
  }

  lemma NothingHolds(rules: Rules, w: State)
    ensures ReadsHold(rules, NOTHING_READ, w)
  {
  }

  lemma CreateSane(rules: Rules, origin: Snapshot, d: Design, interactive: bool, scope: Scope, persists: bool)
    requires Sane(rules, origin, d)
    ensures Sane(rules, origin, Create(d, interactive, scope, persists))
  {
    hide Leads, Logged, ReadsHold;
    if persists {
      InstallSane(rules, origin, d, d.issued, interactive, scope);
    } else {
      LoggedStill(d, Create(d, interactive, scope, false));
    }
  }

  lemma SpawnSane(rules: Rules, origin: Snapshot, d: Design, id: Id, installs: bool)
    requires Sane(rules, origin, d) && id in d.tasks && !d.tasks[id].state.Running?
    requires Get(d.tokens, d.tasks[id].token) == Some(id)
    ensures Sane(rules, origin, Spawn(d, d.tasks[id], installs))
  {
    if installs {
      InstallSane(rules, origin, d, d.tasks[id].token, d.tasks[id].interactive, d.tasks[id].scope);
    }
  }

  lemma RecordKept(rules: Rules, readSet: ReadSet, w: State, s: Symbol, q: Query)
    requires ReadsHold(rules, readSet, w)
    ensures PrintOf(rules, w, s).Some? ==>
              ReadsHold(rules, readSet.(symbols := readSet.symbols[s := PrintOf(rules, w, s).value]), w)
    ensures ReadsHold(rules, readSet.(queries := readSet.queries[q := rules.answer(w, q)]), w)
  {
    if PrintOf(rules, w, s).Some? {
      var more := readSet.(symbols := readSet.symbols[s := PrintOf(rules, w, s).value]);
      forall t | t in more.symbols ensures SymbolHolds(rules, more, w, t) {
        if t != s { assert SymbolHolds(rules, readSet, w, t); }
      }
      forall r | r in more.queries ensures QueryHolds(rules, more, w, r) { assert QueryHolds(rules, readSet, w, r); }
    }
    var more := readSet.(queries := readSet.queries[q := rules.answer(w, q)]);
    forall t | t in more.symbols ensures SymbolHolds(rules, more, w, t) { assert SymbolHolds(rules, readSet, w, t); }
    forall r | r in more.queries ensures QueryHolds(rules, more, w, r) {
      if r != q { assert QueryHolds(rules, readSet, w, r); }
    }
  }

  /** A read records what the task's own snapshot says. */
  lemma ReadSane(rules: Rules, origin: Snapshot, d: Design, id: Id, symbol: Symbol)
    requires Sane(rules, origin, d)
    ensures Sane(rules, origin, Observe(rules, d, id, symbol).0)
  {
    hide Sane, PrintOf, MissedBy;
    if id in d.tasks {
      var task := d.tasks[id];
      var w := task.pinned.workspace;
      if PrintOf(rules, w, symbol).Some? {
        var more := task.readSet.(symbols := task.readSet.symbols[symbol := PrintOf(rules, w, symbol).value]);
        TaskReads(rules, origin, d, id);
        RecordKept(rules, task.readSet, w, symbol, Search(0));
        MoreRead(rules, origin, d, id, more);
      } else {
        MissSane(rules, origin, d, id, symbol);
      }
    }
  }

  lemma AskSane(rules: Rules, origin: Snapshot, d: Design, id: Id, query: Query)
    requires Sane(rules, origin, d)
    ensures Sane(rules, origin, Ask(rules, d, id, query).0)
  {
    hide Sane;
    if id in d.tasks {
      var task := d.tasks[id];
      TaskReads(rules, origin, d, id);
      RecordKept(rules, task.readSet, task.pinned.workspace, Derived(0), query);
      MoreRead(rules, origin, d, id,
        task.readSet.(queries := task.readSet.queries[query := rules.answer(task.pinned.workspace, query)]));
    }
  }

  lemma TaskReads(rules: Rules, origin: Snapshot, d: Design, id: Id)
    requires Sane(rules, origin, d) && id in d.tasks
    ensures ReadsHold(rules, d.tasks[id].readSet, d.tasks[id].pinned.workspace)
  {
    hide ReadsHold, Owned, Logged, Leads, MissesOwn;
  }

  lemma MoreRead(rules: Rules, origin: Snapshot, d: Design, id: Id, readSet: ReadSet)
    requires Sane(rules, origin, d) && id in d.tasks && ReadsHold(rules, readSet, d.tasks[id].pinned.workspace)
    ensures Sane(rules, origin, d.(tasks := d.tasks[id := d.tasks[id].(readSet := readSet)]))
  {
    hide Sane, ReadsHold;
    OneAdvances(rules, origin, d, id, d.tasks[id].(readSet := readSet));
  }

  lemma MissSane(rules: Rules, origin: Snapshot, d: Design, id: Id, symbol: Symbol)
    requires Sane(rules, origin, d) && id in d.tasks && PrintOf(rules, d.tasks[id].pinned.workspace, symbol).None?
    ensures Sane(rules, origin, d.(missed := d.missed[id := MissedBy(d, id) + {symbol}]))
  {
    hide ReadsHold, Leads, Logged, PrintOf;
    LoggedStill(d, d.(missed := d.missed[id := MissedBy(d, id) + {symbol}]));
  }

  lemma SweptAdvance(rules: Rules, tasks: map<Id, Task>, changed: seq<Symbol>, w: State)
    requires Lawful(rules) && ReadsOwn(rules, tasks)
    ensures AllAdvance(rules, tasks, Swept(rules, tasks, changed, w))
  {
    hide ReadsHold, CausesOf, Lawful;
  }

  lemma RollSane(rules: Rules, origin: Snapshot, d: Design, id: Id, installs: bool)
    requires Sane(rules, origin, d) && IsSession(d, id)
    ensures Sane(rules, origin, Roll(d, id, installs))
  {
    hide ReadsHold, Leads, Logged;
    OneAdvances(rules, origin, d, id, d.tasks[id].(state := Invalidated));
    SpawnSane(rules, origin, d.(tasks := d.tasks[id := d.tasks[id].(state := Invalidated)]), id, installs);
  }

  lemma {:induction false} RollAllSane(rules: Rules, origin: Snapshot, d: Design, ids: seq<Id>, fails: set<Id>)
    requires Sane(rules, origin, d)
    ensures Sane(rules, origin, RollAll(d, ids, fails))
  {
    hide Sane, Roll;
    if ids != [] {
      RollAllSane(rules, origin, d, ids[..|ids| - 1], fails);
      var before, id := RollAll(d, ids[..|ids| - 1], fails), ids[|ids| - 1];
      if IsSession(before, id) { RollSane(rules, origin, before, id, id !in fails); }
    }
  }

  /** Publishing a head: the next revision, recorded after what is recorded already. */
  lemma HeadMoves(rules: Rules, origin: Snapshot, d: Design, e: Entry)
    requires Sane(rules, origin, d) && e.parent == d.head && EntryHolds(rules, e) && e.Disk?
    ensures Sane(rules, origin, d.(head := e.result, log := d.log + [e]))
  {
    hide ReadsHold, Leads, Logged;
    RevisionNext(rules, e);
    LeadsMore(rules, origin, d.log, d.head, e);
    DiskLogged(d, e);
    hide EntryHolds;
  }

  lemma DiskLogged(d: Design, e: Entry)
    requires Logged(d) && e.Disk?
    ensures Logged(d.(head := e.result, log := d.log + [e]))
  {
    var after := d.(head := e.result, log := d.log + [e]);
    forall key | key in after.nonces ensures CommitIn(after.log, key, after.nonces[key]) {
      CommitInMore(d.log, e, key, d.nonces[key]);
    }
    hide CommitIn;
    forall i | 0 <= i < |after.log| && after.log[i].Commit? ensures Remembered(after, after.log[i]) {
      assert Remembered(d, d.log[i]);
    }
  }

  lemma CommitInMore(log: seq<Entry>, e: Entry, key: (Id, nat), revision: nat)
    requires CommitIn(log, key, revision)
    ensures CommitIn(log + [e], key, revision)
  {
    var i :| 0 <= i < |log| && IsCommit(log[i], key, revision);
    assert IsCommit((log + [e])[i], key, revision);
  }

  /** Publishing a commit the gate accepted, by a task that was running. */
  lemma CommitMoves(rules: Rules, origin: Snapshot, d: Design, e: Entry)
    requires Sane(rules, origin, d) && e.Commit? && e.parent == d.head && EntryHolds(rules, e)
    requires e.request.task in d.tasks && d.tasks[e.request.task] == e.task && e.task.state.Running?
    ensures Sane(rules, origin,
            d.(head := e.result, log := d.log + [e], tasks := d.tasks[e.request.task := e.task.(state := Committed)],
                                   nonces := d.nonces[(e.request.task, e.request.nonce) := e.result.revision]))
  {
    var done := d.(tasks := d.tasks[e.request.task := e.task.(state := Committed)]);
    var after := done.(head := e.result, log := d.log + [e],
                       nonces := d.nonces[(e.request.task, e.request.nonce) := e.result.revision]);
    TaskReads(rules, origin, d, e.request.task);
    hide ReadsHold, EntryHolds, Leads, Logged, MissesOwn, Owned, ReadsOwn;
    NeverCommitted(d, e.request.task);
    OneAdvances(rules, origin, d, e.request.task, e.task.(state := Committed));
    RevisionNext(rules, e);
    LeadsMore(rules, origin, d.log, d.head, e);
    CommitLogged(done, e);
    MissesStill(rules, done, after);
    OwnedStill(done, after);
  }

  lemma LeadsMore(rules: Rules, origin: Snapshot, log: seq<Entry>, head: Snapshot, e: Entry)
    requires Leads(rules, origin, log, head) && e.parent == head && EntryHolds(rules, e)
    ensures Leads(rules, origin, log + [e], e.result)
  {
    hide EntryHolds;
    assert (log + [e])[..|log|] == log;
  }

  lemma CommitLogged(d: Design, e: Entry)
    requires Logged(d) && e.Commit? && e.request.task in d.tasks && Spent(d.tasks[e.request.task].state)
    requires d.tasks[e.request.task].pinned == e.task.pinned
    requires forall i :: 0 <= i < |d.log| && d.log[i].Commit? ==> d.log[i].request.task != e.request.task
    ensures Logged(d.(head := e.result, log := d.log + [e],
            nonces := d.nonces[(e.request.task, e.request.nonce) := e.result.revision]))
  {
    var key := (e.request.task, e.request.nonce);
    var after := d.(head := e.result, log := d.log + [e], nonces := d.nonces[key := e.result.revision]);
    assert IsCommit(after.log[|d.log|], key, e.result.revision);
    forall k | k in after.nonces ensures CommitIn(after.log, k, after.nonces[k]) {
      if k != key { CommitInMore(d.log, e, k, d.nonces[k]); }
    }
    hide CommitIn;
    forall i | 0 <= i < |after.log| && after.log[i].Commit? ensures Remembered(after, after.log[i]) {
      if i < |d.log| { assert Remembered(d, d.log[i]); }
    }
  }

  lemma NeverCommitted(d: Design, id: Id)
    requires Logged(d) && id in d.tasks && d.tasks[id].state.Running?
    ensures forall i :: 0 <= i < |d.log| && d.log[i].Commit? ==> d.log[i].request.task != id
  {
    forall i | 0 <= i < |d.log| && d.log[i].Commit? ensures d.log[i].request.task != id {
      assert Remembered(d, d.log[i]);
    }
  }

  lemma PublishedSane(rules: Rules, origin: Snapshot, d: Design, request: Request, w: State, changed: seq<Symbol>,
      sweeps: bool, installs: bool)
    requires Lawful(rules) && Sane(rules, origin, d) && request.task in d.tasks && d.tasks[request.task].state.Running?
    requires Accepts(rules, d.tasks[request.task], request, d.head) &&
             Applied(rules, d.head.workspace, request.patch) == Some(w)
    ensures Sane(rules, origin, Published(rules, d, request, w, changed, sweeps, installs))
  {
    hide Accepts, Applied, ReadsHold, Logged, Leads, Swept, Lawful;
    var task := d.tasks[request.task];
    var e := Commit(task, request, d.head, Snapshot(d.head.revision + 1, w));
    CommitMoves(rules, origin, d, e);
    var done := d.(head := e.result, log := d.log + [e], tasks := d.tasks[request.task := task.(state := Committed)],
                   nonces := d.nonces[(request.task, request.nonce) := e.result.revision]);
    var after := if sweeps then done.(tasks := Swept(rules, done.tasks, changed, w)) else done;
    if sweeps {
      SweptAdvance(rules, done.tasks, changed, w);
      TasksAdvance(rules, origin, done, after.tasks);
      assert Advances(rules, done.tasks[request.task], after.tasks[request.task]);
    }
    SweptSpent(rules, done.tasks, changed, w, request.task);
    if task.interactive { SpawnSane(rules, origin, after, request.task, installs); }
  }

  lemma SweptSpent(rules: Rules, tasks: map<Id, Task>, changed: seq<Symbol>, w: State, id: Id)
    requires Lawful(rules) && id in tasks && tasks[id].state.Committed?
    ensures id in Swept(rules, tasks, changed, w) && Swept(rules, tasks, changed, w)[id] == tasks[id]
  {
    hide CausesOf, Lawful;
  }

  lemma SubmitSane(rules: Rules, origin: Snapshot, d: Design, step: Step)
    requires Lawful(rules) && Sane(rules, origin, d) && step.SubmitStep? && Legal(rules, d, step)
    ensures Sane(rules, origin, Next(rules, d, step))
  {
    var request := step.request;
    hide Sane, Accepts, Applied, Answers, Legal, Published, Lawful, RefusedTask, WithPatch;
    hide Create, Observe, Ask, Adopt, Refresh, Finish;
    if request.task !in d.tasks || (request.task, request.nonce) in d.nonces {
    } else if d.tasks[request.task].state.Invalidated? {
      NotedSane(rules, origin, d, request.task, request.patch);
    } else if !d.tasks[request.task].state.Running? {
    } else if step.verdict.Refused? {
      RefusedSane(rules, origin, d, request.task, step.verdict.rejection, request.patch);
    } else if !step.stored {
      RefusedSane(rules, origin, d, request.task, DraftValidationFailed, request.patch);
    } else {
      LegalPasses(rules, d, step);
      PublishedSane(rules, origin, d, request, step.verdict.workspace, step.changed, step.sweeps, step.installs);
    }
  }

  lemma LegalPasses(rules: Rules, d: Design, step: Step)
    requires step.SubmitStep? && Legal(rules, d, step) && step.verdict.Passed?
    requires step.request.task in d.tasks && d.tasks[step.request.task].state.Running?
    ensures Accepts(rules, d.tasks[step.request.task], step.request, d.head)
    ensures Applied(rules, d.head.workspace, step.request.patch) == Some(step.verdict.workspace)
  {
    hide Accepts, Applied;
  }

  lemma NotedSane(rules: Rules, origin: Snapshot, d: Design, id: Id, patch: seq<Mutation>)
    requires Sane(rules, origin, d) && id in d.tasks && d.tasks[id].state.Invalidated?
    ensures Sane(rules, origin, d.(tasks := d.tasks[id := d.tasks[id].(note := WithPatch(d.tasks[id].note, patch))]))
  {
    hide Sane, WithPatch;
    SameRunSane(rules, origin, d, id, d.tasks[id].(note := WithPatch(d.tasks[id].note, patch)));
  }

  lemma RefusedSane(rules: Rules, origin: Snapshot, d: Design, id: Id, rejection: Rejection, patch: seq<Mutation>)
    requires Sane(rules, origin, d) && id in d.tasks && d.tasks[id].state.Running?
    ensures Sane(rules, origin, d.(tasks := d.tasks[id := RefusedTask(d.tasks[id], rejection, patch)]))
  {
    hide Sane, RefusedTask;
    RefusedKeeps(d.tasks[id], rejection, patch);
    SameRunSane(rules, origin, d, id, RefusedTask(d.tasks[id], rejection, patch));
  }

  lemma RefusedKeeps(task: Task, rejection: Rejection, patch: seq<Mutation>)
    ensures var refused := RefusedTask(task, rejection, patch);
            task.(state := refused.state, note := refused.note) == refused
  {
  }

  /** A task whose note or state alone is changed, and which is not made to run. */
  lemma SameRunSane(rules: Rules, origin: Snapshot, d: Design, id: Id, task: Task)
    requires Sane(rules, origin, d) && id in d.tasks && !Spent(d.tasks[id].state)
    requires task == d.tasks[id].(state := task.state, note := task.note) &&
             (task.state.Running? ==> d.tasks[id].state.Running?)
    ensures Sane(rules, origin, d.(tasks := d.tasks[id := task]))
  {
    assert ReadsHold(rules, d.tasks[id].readSet, d.tasks[id].pinned.workspace);
    hide Sane, ReadsHold;
    OneAdvances(rules, origin, d, id, task);
  }

  lemma AdoptSane(rules: Rules, origin: Snapshot, d: Design, w: State, changed: seq<Symbol>, sweeps: bool,
      sessions: seq<Id>, fails: set<Id>)
    requires Lawful(rules) && Sane(rules, origin, d)
    ensures Sane(rules, origin, Adopt(rules, d, w, changed, sweeps, sessions, fails))
  {
    hide ReadsHold, Logged, Leads, Swept, Owned, Lawful;
    var head := Snapshot(d.head.revision + 1, w);
    var e := Disk(d.head, head);
    HeadMoves(rules, origin, d, e);
    var moved := d.(head := head, log := d.log + [e]);
    var after := if sweeps then moved.(tasks := Swept(rules, moved.tasks, changed, w)) else moved;
    if sweeps {
      SweptAdvance(rules, moved.tasks, changed, w);
      TasksAdvance(rules, origin, moved, after.tasks);
    }
    RollAllSane(rules, origin, after, sessions, fails);
  }

  lemma FinishSane(rules: Rules, origin: Snapshot, d: Design, id: Id, outcome: TaskState)
    requires Sane(rules, origin, d) && Spent(outcome)
    ensures Sane(rules, origin, Finish(d, id, outcome))
  {
    if id in d.tasks && (IsActive(d.tasks[id].state) || d.tasks[id].state.Committed?) {
      assert ReadsHold(rules, d.tasks[id].readSet, d.tasks[id].pinned.workspace);
      hide ReadsHold, Leads, Logged;
      OneAdvances(rules, origin, d, id, d.tasks[id].(state := outcome));
      Revoked(rules, origin, d.(tasks := d.tasks[id := d.tasks[id].(state := outcome)]), id);
    }
  }

  /** Revoking a task's tokens takes none from a running task. */
  lemma Revoked(rules: Rules, origin: Snapshot, d: Design, id: Id)
    requires Sane(rules, origin, d) && id in d.tasks && !d.tasks[id].state.Running?
    ensures Sane(rules, origin, d.(tokens := map t | t in d.tokens && d.tokens[t] != id :: d.tokens[t]))
  {
    hide ReadsHold, Leads, Logged;
    LoggedStill(d, d.(tokens := map t | t in d.tokens && d.tokens[t] != id :: d.tokens[t]));
  }

  /** Every step keeps what a run keeps. */
  lemma NextSane(rules: Rules, origin: Snapshot, d: Design, step: Step)
    requires Lawful(rules) && Sane(rules, origin, d) && Legal(rules, d, step)
    ensures Sane(rules, origin, Next(rules, d, step))
  {
    hide Sane, Create, Observe, Ask, Submit, Adopt, Finish, Roll, Answers, Lawful;
    match step
    case CreateStep(interactive, scope, persists) => CreateSane(rules, origin, d, interactive, scope, persists);
    case ReadStep(id, symbol) => ReadSane(rules, origin, d, id, symbol);
    case AskStep(id, query) => AskSane(rules, origin, d, id, query);
    case SubmitStep(_, _, _, _, _, _) => SubmitSane(rules, origin, d, step);
    case DiskStep(w, changed, sweeps, sessions, fails) =>
      AdoptSane(rules, origin, d, w, changed, sweeps, sessions, fails);
    case RefreshStep(id, installs) => if IsSession(d, id) { RollSane(rules, origin, d, id, installs); }
    case FinishStep(id, outcome) => FinishSane(rules, origin, d, id, outcome);
  }

  ghost predicate AllLegal(rules: Rules, d: Design, steps: seq<Step>)
    requires Lawful(rules)
    decreases |steps|
  {
    steps == [] || (Legal(rules, d, steps[0]) && AllLegal(rules, Next(rules, d, steps[0]), steps[1..]))
  }

  ghost function Run(rules: Rules, d: Design, steps: seq<Step>): Design
    requires Lawful(rules)
    decreases |steps|
  {
    if steps == [] then d else Run(rules, Next(rules, d, steps[0]), steps[1..])
  }

  function Start(origin: Snapshot): Design {
    Design(origin, map[], map[], map[], 0, [], map[])
  }

  /** Every run, whatever is swept, refused, or fails to be stored, keeps the engine sane. */
  lemma {:induction false} RunSane(rules: Rules, origin: Snapshot, d: Design, steps: seq<Step>)
    requires Lawful(rules) && Sane(rules, origin, d) && AllLegal(rules, d, steps)
    ensures Sane(rules, origin, Run(rules, d, steps))
    decreases |steps|
  {
    hide Sane, Next, Legal, Lawful;
    if steps != [] {
      NextSane(rules, origin, d, steps[0]);
      RunSane(rules, origin, Next(rules, d, steps[0]), steps[1..]);
    }
  }

  lemma StartSane(rules: Rules, origin: Snapshot)
    ensures Sane(rules, origin, Start(origin))
  {
  }

  /**
   One entry of the log done again, alone: a change on disk, or its task, reading at the head it finds, submitting
   there.
   */
  ghost function Again(rules: Rules, head: Snapshot, e: Entry): Option<Snapshot> {
    if e.Disk? then Some(Snapshot(head.revision + 1, e.result.workspace))
    else
      var serial, request := Serial(rules, e.task, head), e.request.(base := head.revision);
      if Accepts(rules, serial, request, head)
        then Some(Snapshot(head.revision + 1, Applied(rules, head.workspace, request.patch).value)) else None
  }

  /** The log done again one entry at a time, each pinned at the head the one before left. */
  ghost function Serially(rules: Rules, origin: Snapshot, log: seq<Entry>): Option<Snapshot> {
    if log == [] then Some(origin) else
    var before := Serially(rules, origin, log[..|log| - 1]);
    if before.None? then None else Again(rules, before.value, log[|log| - 1])
  }

  /** The head after the first `k` entries. */
  function HeadAt(origin: Snapshot, log: seq<Entry>, k: nat): Snapshot
    requires k <= |log|
  {
    if k == 0 then origin else log[k - 1].result
  }

  lemma EntryAgain(rules: Rules, e: Entry)
    requires EntryHolds(rules, e)
    ensures Again(rules, e.parent, e) == Some(e.result)
  {
    hide Applied;
    if e.Commit? { AcceptedSerially(rules, e.task, e.request, e.parent); }
  }

  /**
   Serializability: the commits of a run, done again one at a time in revision order, each by a task
   pinned at its parent and reading there, are all accepted and yield the same heads.
   */
  lemma {:induction false} SerialReplay(rules: Rules, origin: Snapshot, log: seq<Entry>, head: Snapshot, k: nat)
    requires Leads(rules, origin, log, head) && k <= |log|
    ensures Serially(rules, origin, log[..k]) == Some(HeadAt(origin, log, k))
    ensures HeadAt(origin, log, |log|) == head
    ensures HeadAt(origin, log, k).revision == origin.revision + k
    decreases |log|
  {
    hide EntryHolds, Again;
    if log != [] {
      var front, last := log[..|log| - 1], log[|log| - 1];
      if k < |log| {
        SerialReplay(rules, origin, front, last.parent, k);
        assert front[..k] == log[..k];
      } else {
        SerialReplay(rules, origin, front, last.parent, |front|);
        assert front[..|front|] == front && log[..k] == log && log[..|log| - 1] == front;
        EntryAgain(rules, last);
        RevisionNext(rules, last);
      }
    }
  }

  lemma RevisionNext(rules: Rules, e: Entry)
    requires EntryHolds(rules, e)
    ensures e.result.revision == e.parent.revision + 1
  {
    hide Accepts, Applied, ReadsHold;
  }

  lemma {:induction false} EntryOf(rules: Rules, origin: Snapshot, log: seq<Entry>, head: Snapshot, i: nat)
    requires Leads(rules, origin, log, head) && i < |log|
    ensures EntryHolds(rules, log[i]) && log[i].parent == HeadAt(origin, log, i)
    decreases |log|
  {
    hide EntryHolds;
    var front := log[..|log| - 1];
    if i < |front| {
      EntryOf(rules, origin, front, log[|log| - 1].parent, i);
    } else if i > 0 {
      EntryOf(rules, origin, front, log[|log| - 1].parent, i - 1);
    }
  }

  /** What holds of every entry a run's log ends with. */
  lemma RunEntry(rules: Rules, origin: Snapshot, steps: seq<Step>, i: nat)
    requires Lawful(rules) && AllLegal(rules, Start(origin), steps) && i < |Run(rules, Start(origin), steps).log|
    ensures var d := Run(rules, Start(origin), steps);
            Leads(rules, origin, d.log, d.head) && EntryHolds(rules, d.log[i]) &&
              d.log[i].parent == HeadAt(origin, d.log, i) &&
            (d.log[i].Commit? ==> Misses(rules, MissedBy(d, d.log[i].request.task), d.log[i].task.pinned.workspace))
  {
    StartSane(rules, origin);
    RunSane(rules, origin, Start(origin), steps);
    var d := Run(rules, Start(origin), steps);
    hide Run, AllLegal, EntryHolds, Lawful, Owned, ReadsOwn, Misses;
    EntryOf(rules, origin, d.log, d.head, i);
    if d.log[i].Commit? {
      assert Remembered(d, d.log[i]);
      NothingMissed(rules, d.log[i].task.pinned.workspace);
    }
  }

  lemma NothingMissed(rules: Rules, w: State)
    ensures Misses(rules, {}, w)
  {
  }

  /**
   The serial replay of any run from an empty engine: the log done again one entry at a time gives the
   same heads, each accepted commit's task finding at the parent just what it had found. All it had
   asked is answered there as it was, misses included, exactly when what it missed is still missing.
   */
  lemma RunIsSerial(rules: Rules, origin: Snapshot, steps: seq<Step>, i: nat)
    requires Lawful(rules) && AllLegal(rules, Start(origin), steps) && i < |Run(rules, Start(origin), steps).log|
    ensures var d := Run(rules, Start(origin), steps);
            var e := d.log[i];
            Serially(rules, origin, d.log) == Some(d.head) && Serially(rules, origin, d.log[..i]) == Some(e.parent) &&
            e.result.revision == origin.revision + i + 1 &&
            (e.Commit? ==> Serial(rules, e.task, e.parent).readSet == e.task.readSet &&
                           AnsweredAgain(rules, e, MissedBy(d, e.request.task)))
  {
    RunEntry(rules, origin, steps, i);
    var d := Run(rules, Start(origin), steps);
    hide Run, AllLegal, EntryHolds, Lawful;
    assert d.log[..|d.log|] == d.log;
    SerialReplay(rules, origin, d.log, d.head, |d.log|);
    SerialReplay(rules, origin, d.log, d.head, i);
    SerialReplay(rules, origin, d.log, d.head, i + 1);
    if d.log[i].Commit? { EntryAnswered(rules, d.log[i], MissedBy(d, d.log[i].request.task)); }
  }

  /** Whether a commit's parent answers all its task had asked as its snapshot did is settled by what it missed. */
  ghost predicate AnsweredAgain(rules: Rules, e: Entry, missed: set<Symbol>)
    requires e.Commit?
  {
    AnswerAlike(rules, e.task.readSet, missed, e.task.pinned.workspace, e.parent.workspace) <==>
    Misses(rules, missed, e.parent.workspace)
  }

  lemma EntryAnswered(rules: Rules, e: Entry, missed: set<Symbol>)
    requires e.Commit? && EntryHolds(rules, e) && Misses(rules, missed, e.task.pinned.workspace)
    ensures Serial(rules, e.task, e.parent).readSet == e.task.readSet && AnsweredAgain(rules, e, missed)
  {
    hide Accepts, Applied, ReadsHold, Serial, Misses, AnswerAlike;
    AcceptedAlike(rules, e.task, e.request, e.parent, missed);
    AcceptedSerially(rules, e.task, e.request, e.parent);
  }

  /**
   No update is lost in any run: each slice a commit names, but for outbox runtimes, holds at its parent
   what it held at the snapshot its task reasoned from; so none replaces what another wrote meanwhile.
   */
  lemma NoUpdateLost(rules: Rules, origin: Snapshot, steps: seq<Step>, i: nat)
    requires Lawful(rules) && AllLegal(rules, Start(origin), steps) && i < |Run(rules, Start(origin), steps).log|
    requires Run(rules, Start(origin), steps).log[i].Commit?
    ensures var e := Run(rules, Start(origin), steps).log[i];
            Untouched(e.request.patch, e.task.pinned.workspace, e.parent.workspace)
  {
    RunEntry(rules, origin, steps, i);
    var e := Run(rules, Start(origin), steps).log[i];
    hide Run, AllLegal, Lawful, Accepts, Untouched;
    AcceptedUntouched(rules, e.task, e.request, e.parent);
  }

  /** And no commit of a run overwrites what its patch does not address, whoever wrote it since the task's snapshot. */
  lemma NothingOverwritten(rules: Rules, origin: Snapshot, steps: seq<Step>, i: nat)
    requires Lawful(rules) && AllLegal(rules, Start(origin), steps) && i < |Run(rules, Start(origin), steps).log|
    requires Run(rules, Start(origin), steps).log[i].Commit?
    ensures var e := Run(rules, Start(origin), steps).log[i];
            Framed(e.parent.workspace, e.result.workspace, Footprints(e.request.patch), e.request.patch)
  {
    RunEntry(rules, origin, steps, i);
    var e := Run(rules, Start(origin), steps).log[i];
    hide Run, AllLegal, Lawful, Framed, Accepts, ReadsHold;
    PatchFrame(e.parent.workspace, e.request.patch);
  }

  /**
   The statuses explicit prompts write are outside any footprint, so no conflict guards them; they are
   merged instead: an obligation a commit does not name keeps its text, verdict and references.
   */
  lemma StatusesMerge(rules: Rules, origin: Snapshot, steps: seq<Step>, i: nat, id: Id)
    requires Lawful(rules) && AllLegal(rules, Start(origin), steps) && i < |Run(rules, Start(origin), steps).log|
    requires var e := Run(rules, Start(origin), steps).log[i];
             e.Commit? && id in e.parent.workspace.obligations &&
               !Covered(Footprints(e.request.patch), PromptObligation(id))
    ensures var e := Run(rules, Start(origin), steps).log[i];
            id in e.result.workspace.obligations &&
            Kept(e.parent.workspace.obligations[id], e.result.workspace.obligations[id])
  {
    RunEntry(rules, origin, steps, i);
    var e := Run(rules, Start(origin), steps).log[i];
    hide Run, AllLegal, Lawful, Kept, Accepts, ReadsHold, Covered;
    PatchKeepsObligations(e.parent.workspace, e.request.patch, id);
  }

  /** In no run does a task commit twice, under one nonce or two. */
  lemma CommitsOnce(rules: Rules, origin: Snapshot, steps: seq<Step>, i: nat, j: nat)
    requires Lawful(rules) && AllLegal(rules, Start(origin), steps)
    requires var log := Run(rules, Start(origin), steps).log;
             i < |log| && j < |log| && log[i].Commit? && log[j].Commit? && log[i].request.task == log[j].request.task
    ensures i == j
  {
    StartSane(rules, origin);
    RunSane(rules, origin, Start(origin), steps);
    hide Run, AllLegal, Lawful, Leads, ReadsOwn, MissesOwn, Owned;
  }

  /** In every run a session's token is held by at most one running task. */
  lemma OneRunning(rules: Rules, origin: Snapshot, steps: seq<Step>, a: Id, b: Id)
    requires Lawful(rules) && AllLegal(rules, Start(origin), steps)
    requires var tasks := Run(rules, Start(origin), steps).tasks;
             a in tasks && b in tasks && tasks[a].token == tasks[b].token && tasks[a].state.Running? &&
               tasks[b].state.Running?
    ensures a == b
  {
    StartSane(rules, origin);
    RunSane(rules, origin, Start(origin), steps);
    hide Run, AllLegal, Lawful, Leads, ReadsOwn, MissesOwn, Logged;
  }

  /**
   What a step leaves standing: nonces, the log, and of each task that it runs, or is unspent, no more once it does not.
   */
  ghost predicate Stands(before: Design, after: Design) {
    && (forall key :: key in before.nonces ==> Get(after.nonces, key) == Some(before.nonces[key]))
    && before.log <= after.log && before.issued <= after.issued && before.head.revision <= after.head.revision
    && (forall id :: id in before.tasks ==> id in after.tasks && after.tasks[id].pinned == before.tasks[id].pinned)
    && (forall id :: id in before.tasks && !before.tasks[id].state.Running? ==> !after.tasks[id].state.Running?)
  }

  lemma StandsOn(a: Design, b: Design, c: Design)
    requires Stands(a, b) && Stands(b, c)
    ensures Stands(a, c)
  {
    forall key | key in a.nonces ensures Get(c.nonces, key) == Some(a.nonces[key]) {
      assert Get(b.nonces, key) == Some(a.nonces[key]);
    }
    assert forall i :: 0 <= i < |a.log| ==> c.log[i] == b.log[i] == a.log[i];
  }

  lemma SpawnStands(d: Design, predecessor: Task, installs: bool)
    requires forall id :: id in d.tasks ==> id < d.issued
    ensures Stands(d, Spawn(d, predecessor, installs))
  {
  }

  lemma RollStands(d: Design, id: Id, installs: bool)
    requires Owned(d) && IsSession(d, id)
    ensures Stands(d, Roll(d, id, installs))
  {
    var ended := d.(tasks := d.tasks[id := d.tasks[id].(state := Invalidated)]);
    assert Stands(d, ended);
    SpawnStands(ended, d.tasks[id], installs);
    hide Stands;
    StandsOn(d, ended, Roll(d, id, installs));
  }

  lemma {:induction false} RollAllStands(rules: Rules, origin: Snapshot, d: Design, ids: seq<Id>, fails: set<Id>)
    requires Sane(rules, origin, d)
    ensures Stands(d, RollAll(d, ids, fails))
  {
    if ids != [] {
      RollAllStands(rules, origin, d, ids[..|ids| - 1], fails);
      RollAllSane(rules, origin, d, ids[..|ids| - 1], fails);
      var before, id := RollAll(d, ids[..|ids| - 1], fails), ids[|ids| - 1];
      hide Stands, Roll, ReadsOwn, Logged, Leads;
      if IsSession(before, id) {
        RollStands(before, id, id !in fails);
        StandsOn(d, before, RollAll(d, ids, fails));
      }
    }
  }

  /** No step takes a commit back, or lets a task run again. */
  lemma NextStands(rules: Rules, origin: Snapshot, d: Design, step: Step)
    requires Lawful(rules) && Sane(rules, origin, d) && Legal(rules, d, step)
    ensures Stands(d, Next(rules, d, step))
  {
    hide ReadsOwn, MissesOwn, Logged, Leads, Answers, Swept, Lawful, Stands, Create, Observe, Ask, Adopt, Finish,
      Submit, Roll;
    SameStands(d);
    match step
    case CreateStep(interactive, scope, persists) => CreateStands(d, interactive, scope, persists);
    case ReadStep(id, symbol) => ReadStands(rules, d, id, symbol, Search(0));
    case AskStep(id, query) => ReadStands(rules, d, id, Derived(0), query);
    case SubmitStep(_, _, _, _, _, _) => SubmitStands(rules, origin, d, step);
    case DiskStep(w, changed, sweeps, sessions, fails) =>
      AdoptStands(rules, origin, d, w, changed, sweeps, sessions, fails);
    case RefreshStep(id, installs) => if IsSession(d, id) { RollStands(d, id, installs); }
    case FinishStep(id, outcome) => FinishStands(d, id, outcome);
  }

  lemma CreateStands(d: Design, interactive: bool, scope: Scope, persists: bool)
    requires Owned(d)
    ensures Stands(d, Create(d, interactive, scope, persists))
  {
  }

  lemma ReadStands(rules: Rules, d: Design, id: Id, symbol: Symbol, query: Query)
    ensures Stands(d, Observe(rules, d, id, symbol).0) && Stands(d, Ask(rules, d, id, query).0)
  {
    hide PrintOf;
  }

  lemma FinishStands(d: Design, id: Id, outcome: TaskState)
    requires Spent(outcome)
    ensures Stands(d, Finish(d, id, outcome))
  {
  }

  lemma SweptStands(rules: Rules, d: Design, changed: seq<Symbol>, w: State)
    requires Lawful(rules)
    ensures Stands(d, d.(tasks := Swept(rules, d.tasks, changed, w)))
  {
    hide CausesOf, Lawful;
  }

  lemma AdoptStands(rules: Rules, origin: Snapshot, d: Design, w: State, changed: seq<Symbol>, sweeps: bool,
      sessions: seq<Id>, fails: set<Id>)
    requires Lawful(rules) && Sane(rules, origin, d)
    ensures Stands(d, Adopt(rules, d, w, changed, sweeps, sessions, fails))
  {
    var head := Snapshot(d.head.revision + 1, w);
    var e := Disk(d.head, head);
    var moved := d.(head := head, log := d.log + [e]);
    HeadMoves(rules, origin, d, e);
    assert Stands(d, moved);
    hide Stands, ReadsHold, Swept, RollAll, Logged, Leads, Owned, Lawful;
    var after := if sweeps then moved.(tasks := Swept(rules, moved.tasks, changed, w)) else moved;
    if sweeps {
      SweptStands(rules, moved, changed, w);
      StandsOn(d, moved, after);
      SweptAdvance(rules, moved.tasks, changed, w);
      TasksAdvance(rules, origin, moved, after.tasks);
    }
    RollAllStands(rules, origin, after, sessions, fails);
    StandsOn(d, after, Adopt(rules, d, w, changed, sweeps, sessions, fails));
  }

  lemma SubmitStands(rules: Rules, origin: Snapshot, d: Design, step: Step)
    requires Lawful(rules) && Sane(rules, origin, d) && step.SubmitStep?
    ensures Stands(d, Next(rules, d, step))
  {
    var request := step.request;
    hide ReadsOwn, MissesOwn, Logged, Leads, Lawful, Swept, Stands, Published, Create, Observe, Ask, Adopt, Refresh,
      Finish;
    SameStands(d);
    if request.task !in d.tasks || (request.task, request.nonce) in d.nonces {
    } else if d.tasks[request.task].state.Invalidated? {
      OneStands(d, request.task, d.tasks[request.task].(note := WithPatch(d.tasks[request.task].note, request.patch)));
    } else if !d.tasks[request.task].state.Running? {
    } else if step.verdict.Refused? {
      OneStands(d, request.task, RefusedTask(d.tasks[request.task], step.verdict.rejection, request.patch));
    } else if !step.stored {
      OneStands(d, request.task, RefusedTask(d.tasks[request.task], DraftValidationFailed, request.patch));
    } else {
      PublishedStands(rules, d, request, step.verdict.workspace, step.changed, step.sweeps, step.installs);
    }
  }

  lemma SameStands(d: Design)
    ensures Stands(d, d)
  {
  }

  lemma OneStands(d: Design, id: Id, task: Task)
    requires id in d.tasks && task.pinned == d.tasks[id].pinned && (task.state.Running? ==> d.tasks[id].state.Running?)
    ensures Stands(d, d.(tasks := d.tasks[id := task]))
  {
  }

  lemma PublishedStands(rules: Rules, d: Design, request: Request, w: State, changed: seq<Symbol>, sweeps: bool,
      installs: bool)
    requires Lawful(rules) && Owned(d) && request.task in d.tasks
    requires (request.task, request.nonce) !in d.nonces
    ensures Stands(d, Published(rules, d, request, w, changed, sweeps, installs))
  {
    var task := d.tasks[request.task];
    var head := Snapshot(d.head.revision + 1, w);
    var done := d.(head := head, tasks := d.tasks[request.task := task.(state := Committed)],
                   nonces := d.nonces[(request.task, request.nonce) := head.revision],
                   log := d.log + [Commit(task, request, d.head, head)]);
    assert Stands(d, done);
    assert forall id :: id in done.tasks ==> id < done.issued;
    SweptStands(rules, done, changed, w);
    SweptKeys(rules, done.tasks, changed, w);
    hide Stands, Spawn, Swept, Owned, Lawful;
    var swept := if sweeps then done.(tasks := Swept(rules, done.tasks, changed, w)) else done;
    SameStands(done);
    StandsOn(d, done, swept);
    assert forall id :: id in swept.tasks ==> id in done.tasks.Keys;
    SpawnStands(swept, task, installs);
    StandsOn(d, swept, Spawn(swept, task, installs));
  }

  lemma SweptKeys(rules: Rules, tasks: map<Id, Task>, changed: seq<Symbol>, w: State)
    requires Lawful(rules)
    ensures Swept(rules, tasks, changed, w).Keys == tasks.Keys
  {
    hide SweptTask, Lawful;
  }

  lemma {:induction false} RunStands(rules: Rules, origin: Snapshot, d: Design, steps: seq<Step>)
    requires Lawful(rules) && Sane(rules, origin, d) && AllLegal(rules, d, steps)
    ensures Stands(d, Run(rules, d, steps))
    decreases |steps|
  {
    hide Sane, Next, Legal, Lawful;
    if steps != [] {
      NextSane(rules, origin, d, steps[0]);
      NextStands(rules, origin, d, steps[0]);
      RunStands(rules, origin, Next(rules, d, steps[0]), steps[1..]);
      hide Stands;
      StandsOn(d, Next(rules, d, steps[0]), Run(rules, d, steps));
    }
  }

  /**
   A commit once accepted answers every later submission of its task and nonce with its one revision,
   whatever the patch says and whatever has happened since, and moves nothing.
   */
  lemma RepeatedAnswers(rules: Rules, origin: Snapshot, d: Design, request: Request, verdict: Verdict,
      changed: seq<Symbol>, stored: bool, sweeps: bool,
                        installs: bool, steps: seq<Step>, again: Step)
    requires Lawful(rules) && Sane(rules, origin, d)
    requires Legal(rules, d, SubmitStep(request, verdict, changed, stored, sweeps, installs))
    requires Submit(rules, d, request, verdict, changed, stored, sweeps, installs).0.Accepted?
    requires AllLegal(rules, Submit(rules, d, request, verdict, changed, stored, sweeps, installs).1, steps)
    requires again.SubmitStep? && again.request.task == request.task && again.request.nonce == request.nonce
    ensures var (outcome, after) := Submit(rules, d, request, verdict, changed, stored, sweeps, installs);
            var later := Run(rules, after, steps);
            Submit(rules, later, again.request, again.verdict, again.changed, again.stored, again.sweeps,
              again.installs) ==
            (Accepted(outcome.revision, true), later)
  {
    var step := SubmitStep(request, verdict, changed, stored, sweeps, installs);
    var (outcome, after) := Submit(rules, d, request, verdict, changed, stored, sweeps, installs);
    NextSane(rules, origin, d, step);
    NonceHeld(rules, d, step);
    hide Sane, Submit, Legal, Lawful, AllLegal;
    RunStands(rules, origin, after, steps);
    var key := (request.task, request.nonce);
    assert Get(Run(rules, after, steps).nonces, key) == Some(outcome.revision);
    RunKnows(rules, origin, after, steps, request.task);
    AnswersAgain(rules, Run(rules, after, steps), again);
  }

  lemma NonceHeld(rules: Rules, d: Design, step: Step)
    requires Lawful(rules) && step.SubmitStep?
    ensures var (outcome, after) :=
            Submit(rules, d, step.request, step.verdict, step.changed, step.stored, step.sweeps, step.installs);
            outcome.Accepted? ==>
              Get(after.nonces, (step.request.task, step.request.nonce)) == Some(outcome.revision) &&
              step.request.task in after.tasks
  {
    hide SweptTask, Lawful;
  }

  lemma RunKnows(rules: Rules, origin: Snapshot, d: Design, steps: seq<Step>, id: Id)
    requires Lawful(rules) && Stands(d, Run(rules, d, steps)) && id in d.tasks
    ensures id in Run(rules, d, steps).tasks
  {
    hide Run;
  }

  lemma AnswersAgain(rules: Rules, d: Design, again: Step)
    requires Lawful(rules) && again.SubmitStep? && again.request.task in d.tasks &&
             (again.request.task, again.request.nonce) in d.nonces
    ensures Submit(rules, d, again.request, again.verdict, again.changed, again.stored, again.sweeps, again.installs) ==
            (Accepted(d.nonces[(again.request.task, again.request.nonce)], true), d)
  {
    hide Published, Lawful;
  }
}
