/**
 The design engine: tasks pinned to snapshots, one writer that commits through the gate, the sweep that
 invalidates what a commit made stale, outside changes adopted from disk, and session tokens that roll
 from task to task.

 Every operation is one atomic step, a commit included; ids and tokens come from one counter. Whether
 the store takes a write is a parameter of the step that writes. What a task looked for and missed is
 kept beside the engine: the code forgets it, and nothing decides by it.
 */
module Engine {
  import opened Common
  import opened SortDedup
  import opened Program
  import opened Proposals
  import opened Patch
  import opened Slices
  import opened Gate

  /** What the store keeps of each head published: by a commit, or by a change found on disk. */
  datatype Entry =
    | Commit(task: Task, request: Request, parent: Snapshot, result: Snapshot)
    | Disk(parent: Snapshot, result: Snapshot)

  datatype Design = Design(
    head: Snapshot,
    tasks: map<Id, Task>,
    nonces: map<(Id, nat), nat>,
    tokens: map<Id, Id>,
    issued: Id,
    log: seq<Entry>,
    missed: map<Id, set<Symbol>>)

  datatype Outcome = Accepted(revision: nat, replayed: bool) | Rejected(rejection: Rejection)

  predicate IsActive(state: TaskState) {
    state.Running? || state.Committing?
  }

  /** A task past running: committed, or reported finished. */
  predicate Spent(state: TaskState) {
    !IsActive(state) && !state.Planned? && !state.Invalidated?
  }

  const NOTHING_READ := ReadSet(map[], map[])

  /** Installs a running task at the head, under a token. */
  function Install(d: Design, token: Id, interactive: bool, scope: Scope): Design {
    d.(tasks := d.tasks[d.issued := Task(token, interactive, scope, d.head, Running, NOTHING_READ, None)],
      issued := d.issued + 1)
  }

  function Create(d: Design, interactive: bool, scope: Scope, persists: bool): Design {
    var minted := d.(tokens := d.tokens[d.issued := d.issued]);
    if persists then Install(minted, d.issued, interactive, scope) else minted.(issued := d.issued + 1)
  }

  /** Installs a session's next task and points its token there; if that cannot be stored, nothing. */
  function Spawn(d: Design, predecessor: Task, installs: bool): Design {
    if installs
    then Install(d, predecessor.token, predecessor.interactive,
         predecessor.scope).(tokens := d.tokens[predecessor.token := d.issued])
    else d
  }

  function MissedBy(d: Design, id: Id): set<Symbol> {
    if id in d.missed then d.missed[id] else {}
  }

  /** A symbol found is recorded as read; one not found is an error to the task, and no more. */
  function Observe(rules: Rules, d: Design, id: Id, symbol: Symbol): (Design, Option<Fingerprint>) {
    if id !in d.tasks || !IsActive(d.tasks[id].state) then (d, None) else
    var task := d.tasks[id];
    var found := PrintOf(rules, task.pinned.workspace, symbol);
    if found.None? then (d.(missed := d.missed[id := MissedBy(d, id) + {symbol}]), None)
    else
      var readSet := task.readSet.(symbols := task.readSet.symbols[symbol := found.value]);
      (d.(tasks := d.tasks[id := task.(readSet := readSet)]), found)
  }

  function Ask(rules: Rules, d: Design, id: Id, query: Query): (Design, Option<nat>) {
    if id !in d.tasks || !IsActive(d.tasks[id].state) then (d, None) else
    var task := d.tasks[id];
    var answer := rules.answer(task.pinned.workspace, query);
    (d.(tasks := d.tasks[id := task.(readSet := task.readSet.(queries := task.readSet.queries[query := answer]))]),
      Some(answer))
  }

  /** A task after the sweep: a running worker with a cause is invalidated, told why. */
  ghost function SweptTask(rules: Rules, task: Task, changed: seq<Symbol>, w: State): Task
    requires Lawful(rules)
  {
    var causes := CausesOf(rules, task.readSet, changed, w);
    if task.interactive || !task.state.Running? || causes == [] then task
    else task.(state := Invalidated, note := Some(Note(causes, None)))
  }

  ghost function Swept(rules: Rules, tasks: map<Id, Task>, changed: seq<Symbol>, w: State): map<Id, Task>
    requires Lawful(rules)
  {
    map id | id in tasks :: SweptTask(rules, tasks[id], changed, w)
  }

  /** The note of a task invalidated before it could submit takes the patch, if it holds none. */
  function WithPatch(note: Option<Note>, patch: seq<Mutation>): Option<Note> {
    if note.None? then Some(Note([], Some(patch)))
    else if note.value.rejected.None? then Some(note.value.(rejected := Some(patch)))
    else note
  }

  function RejectionCauses(rejection: Rejection): seq<Cause> {
    match rejection
    case ReadConflict(symbol, current) => [if current.Some? then ChangedSymbol(symbol) else RemovedSymbol(symbol)]
    case WriteConflict(symbol) => [ChangedSymbol(symbol)]
    case PhantomConflict(query) => [ChangedQuery(query)]
    case _ => []
  }

  /**
   A refused task: over, with its patch salvaged, if its context is stale and it is no session; else free to go on.
   */
  function RefusedTask(task: Task, rejection: Rejection, patch: seq<Mutation>): Task {
    if IsStaleContext(rejection) && !task.interactive
    then task.(state := Invalidated, note := Some(Note(RejectionCauses(rejection), Some(patch))))
    else task.(state := Running)
  }

  /** Publishes a commit: the head, the nonce, the record, the sweep, and then a session's next task. */
  ghost function Published(rules: Rules, d: Design, request: Request, w: State, changed: seq<Symbol>, sweeps: bool,
      installs: bool): Design
    requires Lawful(rules) && request.task in d.tasks
  {
    var task := d.tasks[request.task];
    var head := Snapshot(d.head.revision + 1, w);
    var done := d.tasks[request.task := task.(state := Committed)];
    var after := d.(head := head, tasks := if sweeps then Swept(rules, done, changed, w) else done,
                    nonces := d.nonces[(request.task, request.nonce) := head.revision],
                    log := d.log + [Commit(task, request, d.head, head)]);
    if task.interactive then Spawn(after, task, installs) else after
  }

  /** A commit, as the gate's verdict decides it. */
  ghost function Submit(rules: Rules, d: Design, request: Request, verdict: Verdict, changed: seq<Symbol>,
                        persists: bool, sweeps: bool, installs: bool): (Outcome, Design)
    requires Lawful(rules)
  {
    if request.task !in d.tasks then (Rejected(TaskUnknown), d)
    else if (request.task, request.nonce) in d.nonces then (Accepted(d.nonces[(request.task, request.nonce)], true), d)
    else
      var task := d.tasks[request.task];
      if task.state.Invalidated? then
        (Rejected(TaskInvalidated),
          d.(tasks := d.tasks[request.task := task.(note := WithPatch(task.note, request.patch))]))
      else if !task.state.Running? then (Rejected(TaskNotRunning(task.state)), d)
      else if verdict.Refused? then
        (Rejected(verdict.rejection),
          d.(tasks := d.tasks[request.task := RefusedTask(task, verdict.rejection, request.patch)]))
      else if !persists then
        (Rejected(DraftValidationFailed),
          d.(tasks := d.tasks[request.task := RefusedTask(task, DraftValidationFailed, request.patch)]))
      else (Accepted(d.head.revision + 1, false),
           Published(rules, d, request, verdict.workspace, changed, sweeps, installs))
  }

  predicate IsSession(d: Design, id: Id) {
    id in d.tasks && d.tasks[id].interactive && d.tasks[id].state.Running?
  }

  /** Ends a session's task and rolls its token to a task at the head. */
  function Roll(d: Design, id: Id, installs: bool): Design
    requires id in d.tasks
  {
    Spawn(d.(tasks := d.tasks[id := d.tasks[id].(state := Invalidated)]), d.tasks[id], installs)
  }

  /** Rolls each of the sessions listed, those for which the store takes the successor. */
  function RollAll(d: Design, ids: seq<Id>, fails: set<Id>): Design {
    if ids == [] then d else
    var before := RollAll(d, ids[..|ids| - 1], fails);
    var id := ids[|ids| - 1];
    if IsSession(before, id) then Roll(before, id, id !in fails) else before
  }

  /** Ids are issued before they are held, and every running task holds its own token. */
  ghost predicate Holding(d: Design) {
    && (forall id :: id in d.tasks ==> id < d.issued)
    && (forall id :: id in d.tasks && d.tasks[id].state.Running? ==> Get(d.tokens, d.tasks[id].token) == Some(id))
  }

  /**
   What a session left behind comes to: its task is over, and its token names a new running task at the
   head, with the same scope and nothing read, if that could be stored, and else still the one that is over.
   */
  ghost predicate MovedOn(before: Design, after: Design, id: Id, fails: set<Id>)
    requires id in before.tasks
  {
    var was := before.tasks[id];
    && id in after.tasks && after.tasks[id] == was.(state := Invalidated)
    && was.token in after.tokens
    && var named := after.tokens[was.token];
       if id !in fails then
         named !in before.tasks && named in after.tasks &&
         after.tasks[named] == Task(was.token, true, was.scope, after.head, Running, ReadSet(map[], map[]), None)
       else named == id
  }

  lemma RollMoves(d: Design, id: Id, fails: set<Id>)
    requires Holding(d) && IsSession(d, id)
    ensures var after := Roll(d, id, id !in fails);
            && MovedOn(d, after, id, fails) && Holding(after)
            && after.head == d.head && d.tasks.Keys <= after.tasks.Keys
            && (forall other :: other in d.tasks && other != id ==> after.tasks[other] == d.tasks[other])
            && (forall t :: t in d.tokens && t != d.tasks[id].token ==>
                 t in after.tokens && after.tokens[t] == d.tokens[t])
            && (forall other :: IsSession(after, other) && other !in d.tasks ==> after.tasks[other].pinned == d.head)
  {
  }

  /** Rolling every session listed moves each on, and touches no other task. */
  lemma {:induction false} RollAllMoves(d: Design, ids: seq<Id>, fails: set<Id>)
    requires Holding(d) && forall id :: id in ids ==> IsSession(d, id)
    ensures forall id :: id in ids ==> id in d.tasks
    ensures var after := RollAll(d, ids, fails);
            && (forall id :: id in ids ==> MovedOn(d, after, id, fails))
            && (forall id :: id in d.tasks && id !in ids ==> id in after.tasks && after.tasks[id] == d.tasks[id])
            && (forall id :: IsSession(after, id) && id !in d.tasks ==> after.tasks[id].pinned == d.head)
            && Holding(after) && after.head == d.head && d.tasks.Keys <= after.tasks.Keys
    decreases |ids|
  {
    if ids != [] {
      var front, id := ids[..|ids| - 1], ids[|ids| - 1];
      assert ids == front + [id];
      assert id in ids && IsSession(d, id);
      hide MovedOn, Roll, Holding;
      RollAllMoves(d, front, fails);
      var before, after := RollAll(d, front, fails), RollAll(d, ids, fails);
      if id in front {
        assert !IsSession(before, id) by { MovedIsOver(d, before, id, fails); }
      } else {
        RollMoves(before, id, fails);
        forall other | other in front ensures MovedOn(d, after, other, fails) {
          MovedStays(d, before, after, id, other, fails);
        }
      }
    }
  }

  lemma MovedIsOver(d: Design, after: Design, id: Id, fails: set<Id>)
    requires id in d.tasks && MovedOn(d, after, id, fails)
    ensures !IsSession(after, id)
  {
  }

  lemma MovedStays(d: Design, before: Design, after: Design, id: Id, other: Id, fails: set<Id>)
    requires Holding(d) && IsSession(d, id) && IsSession(d, other) && id != other
    requires MovedOn(d, before, other, fails) && after.head == before.head && before.tasks.Keys <= after.tasks.Keys
    requires id in before.tasks && before.tasks[id] == d.tasks[id]
    requires forall x :: x in before.tasks && x != id ==> after.tasks[x] == before.tasks[x]
    requires forall t :: t in before.tokens && t != before.tasks[id].token ==>
               t in after.tokens && after.tokens[t] == before.tokens[t]
    ensures MovedOn(d, after, other, fails)
  {
    assert d.tasks[id].token != d.tasks[other].token;
  }

  /** Adopts an outside change as the next revision, and moves every session listed to it. */
  ghost function Adopt(rules: Rules, d: Design, w: State, changed: seq<Symbol>, sweeps: bool, sessions: seq<Id>,
      fails: set<Id>): Design
    requires Lawful(rules)
  {
    var head := Snapshot(d.head.revision + 1, w);
    var after :=
      d.(head := head, tasks := if sweeps then Swept(rules, d.tasks, changed, w) else d.tasks,
        log := d.log + [Disk(d.head, head)]);
    RollAll(after, sessions, fails)
  }

  /** Moves a live session another writer left behind to the head. */
  function Refresh(d: Design, id: Id, installs: bool): Design {
    if IsSession(d, id) && d.tasks[id].pinned.revision != d.head.revision then Roll(d, id, installs) else d
  }

  /** Every session running before moves on, and no session runs on behind the head. */
  ghost predicate SessionsMoved(before: Design, after: Design, fails: set<Id>) {
    && (forall id :: IsSession(before, id) ==> MovedOn(before, after, id, fails))
    && forall id :: IsSession(after, id) ==> after.tasks[id].pinned == after.head
  }

  /** What an adoption does to the tasks, once the head has moved and the sweep is over. */
  lemma AllMoved(rules: Rules, d: Design, changed: seq<Symbol>, swept: Design, sessions: seq<Id>, fails: set<Id>)
    requires Lawful(rules) && Holding(d) && forall id :: id in sessions <==> IsSession(d, id)
    requires swept.tasks == Swept(rules, d.tasks, changed, swept.head.workspace)
    requires swept.tokens == d.tokens && swept.issued == d.issued
    ensures var after := RollAll(swept, sessions, fails);
            SessionsMoved(d, after, fails) && after.head == swept.head &&
            forall id :: id in d.tasks && !IsSession(d, id) ==>
              id in after.tasks && after.tasks[id] == SweptTask(rules, d.tasks[id], changed, swept.head.workspace)
  {
    hide CausesOf, Lawful, RollAll, MovedOn;
    SweptSessions(rules, d.tasks, changed, swept.head.workspace);
    assert forall id :: IsSession(d, id) ==> swept.tasks[id] == d.tasks[id];
    assert Holding(swept);
    hide Holding;
    RollAllMoves(swept, sessions, fails);
    var after := RollAll(swept, sessions, fails);
    forall id | IsSession(d, id) ensures MovedOn(d, after, id, fails) {
      assert id in sessions;
      MovedSame(d, swept, after, id, fails);
    }
    forall id | IsSession(after, id) ensures after.tasks[id].pinned == after.head {
      if id in d.tasks && IsSession(d, id) { MovedIsOver(swept, after, id, fails); }
    }
  }

  lemma MovedSame(d: Design, swept: Design, after: Design, id: Id, fails: set<Id>)
    requires id in d.tasks && swept.tasks.Keys == d.tasks.Keys && swept.tasks[id] == d.tasks[id]
    requires MovedOn(swept, after, id, fails)
    ensures MovedOn(d, after, id, fails)
  {
  }

  /** A live session left behind the head moves on to it; nothing else moves anything. */
  ghost predicate Refreshed(before: Design, after: Design, id: Id, installs: bool) {
    if IsSession(before, id) && before.tasks[id].pinned.revision != before.head.revision then
      && MovedOn(before, after, id, if installs then {} else {id}) && after.head == before.head
      && forall other :: other in before.tasks && other != id ==>
           other in after.tasks && after.tasks[other] == before.tasks[other]
    else after == before
  }

  lemma RefreshMoves(d: Design, id: Id, installs: bool)
    requires Holding(d)
    ensures Refreshed(d, Refresh(d, id, installs), id, installs)
  {
    if IsSession(d, id) { RollMoves(d, id, if installs then {} else {id}); }
    hide MovedOn, Roll, Holding;
  }

  /** Ends a task's authority; a committed one may still be reported on. */
  function Finish(d: Design, id: Id, outcome: TaskState): Design {
    if id !in d.tasks || !(IsActive(d.tasks[id].state) || d.tasks[id].state.Committed?) then d
    else d.(tasks := d.tasks[id := d.tasks[id].(state := outcome)],
         tokens := map t | t in d.tokens && d.tokens[t] != id :: d.tokens[t])
  }

  /** What recording a symbol does to a read set: it holds what was found, and all else it held. */
  ghost predicate SymbolRecorded(was: ReadSet, now: ReadSet, symbol: Symbol, found: Option<Fingerprint>) {
    && now.queries == was.queries
    && forall s :: Get(now.symbols, s) == if s == symbol && found.Some? then found else Get(was.symbols, s)
  }

  ghost predicate QueryRecorded(was: ReadSet, now: ReadSet, query: Query, answer: nat) {
    && now.symbols == was.symbols
    && forall q :: Get(now.queries, q) == if q == query then Some(answer) else Get(was.queries, q)
  }

  /** A read of any active task, session or worker, records what its own snapshot tells, and nothing else. */
  lemma ReadRecords(rules: Rules, d: Design, id: Id, symbol: Symbol)
    requires id in d.tasks && IsActive(d.tasks[id].state)
    ensures var (after, found) := Observe(rules, d, id, symbol);
            && found == PrintOf(rules, d.tasks[id].pinned.workspace, symbol)
            && after == d.(tasks := after.tasks, missed := after.missed)
            && id in after.tasks
            && after.tasks == d.tasks[id := d.tasks[id].(readSet := after.tasks[id].readSet)]
            && SymbolRecorded(d.tasks[id].readSet, after.tasks[id].readSet, symbol, found)
  {
    hide PrintOf;
    assert d.tasks[id := d.tasks[id]] == d.tasks;
  }

  lemma AskRecords(rules: Rules, d: Design, id: Id, query: Query)
    requires id in d.tasks && IsActive(d.tasks[id].state)
    ensures var (after, answer) := Ask(rules, d, id, query);
            && answer == Some(rules.answer(d.tasks[id].pinned.workspace, query))
            && after == d.(tasks := after.tasks)
            && id in after.tasks
            && after.tasks == d.tasks[id := d.tasks[id].(readSet := after.tasks[id].readSet)]
            && QueryRecorded(d.tasks[id].readSet, after.tasks[id].readSet, query, answer.value)
  {
  }

  /** The steps of a run. A step that sweeps may as well not: the gate does not rely on it. */
  datatype Step =
    | CreateStep(interactive: bool, scope: Scope, persists: bool)
    | ReadStep(reader: Id, symbol: Symbol)
    | AskStep(asker: Id, query: Query)
    | SubmitStep(request: Request, verdict: Verdict, changed: seq<Symbol>, stored: bool, sweeps: bool, installs: bool)
    | DiskStep(workspace: State, touched: seq<Symbol>, swept: bool, sessions: seq<Id>, fails: set<Id>)
    | RefreshStep(session: Id, moved: bool)
    | FinishStep(finished: Id, outcome: TaskState)

  /** What a step may be: a commit's verdict is the gate's, and only a finished state finishes. */
  ghost predicate Legal(rules: Rules, d: Design, step: Step) {
    match step
    case SubmitStep(request, verdict, _, _, _, _) =>
      request.task in d.tasks && d.tasks[request.task].state.Running? ==>
        Answers(rules, d.tasks[request.task], request, d.head, verdict)
    case FinishStep(_, outcome) => Spent(outcome) && !outcome.Committed?
    case _ => true
  }

  ghost function Next(rules: Rules, d: Design, step: Step): Design
    requires Lawful(rules)
  {
    match step
    case CreateStep(interactive, scope, persists) => Create(d, interactive, scope, persists)
    case ReadStep(id, symbol) => Observe(rules, d, id, symbol).0
    case AskStep(id, query) => Ask(rules, d, id, query).0
    case SubmitStep(request, verdict, changed, stored, sweeps, installs) =>
      Submit(rules, d, request, verdict, changed, stored, sweeps, installs).1
    case DiskStep(w, changed, sweeps, sessions, fails) => Adopt(rules, d, w, changed, sweeps, sessions, fails)
    case RefreshStep(id, installs) => Refresh(d, id, installs)
    case FinishStep(id, outcome) => Finish(d, id, outcome)
  }

  /** The project's files, as a commit finds them. */
  datatype Files = Unchanged | Outside(workspace: State) | Unreadable

  /** The engine, its fields changed step by step. */
  class Engine {
    const rules: Rules
    var head: Snapshot
    var tasks: map<Id, Task>
    var nonces: map<(Id, nat), nat>
    var tokens: map<Id, Id>
    var issued: Id
    var log: seq<Entry>
    ghost var missed: map<Id, set<Symbol>>

    ghost function Now(): Design
      reads this
    {
      Design(head, tasks, nonces, tokens, issued, log, missed)
    }

    constructor (rules: Rules, workspace: State)
      ensures this.rules == rules && Now() == Design(Snapshot(0, workspace), map[], map[], map[], 0, [], map[])
    {
      this.rules, head, tasks, nonces, tokens, issued, log := rules, Snapshot(0, workspace), map[], map[], map[], 0, [];
      missed := map[];
    }

    method InstallTask(token: Id, interactive: bool, scope: Scope) returns (id: Id)
      modifies this`tasks, this`issued
      ensures id == old(issued) && Now() == Install(old(Now()), token, interactive, scope)
    {
      id := issued;
      tasks := tasks[id := Task(token, interactive, scope, head, Running, NOTHING_READ, None)];
      issued := issued + 1;
    }

    method CreateTask(interactive: bool, scope: Scope, persists: bool) returns (token: Id, id: Option<Id>)
      modifies this
      ensures token == old(issued) && (id.Some? <==> persists) &&
              Now() == Create(old(Now()), interactive, scope, persists)
    {
      token := issued;
      tokens := tokens[token := token];
      id := None;
      if persists {
        var installed := InstallTask(token, interactive, scope);
        id := Some(installed);
      } else {
        issued := issued + 1;
      }
    }

    method SpawnSuccessor(predecessor: Task, installs: bool)
      modifies this`tasks, this`issued, this`tokens
      ensures Now() == Spawn(old(Now()), predecessor, installs)
    {
      if installs {
        var id := InstallTask(predecessor.token, predecessor.interactive, predecessor.scope);
        tokens := tokens[predecessor.token := id];
      }
    }

    method ReadSymbol(id: Id, symbol: Symbol) returns (found: Option<Fingerprint>)
      modifies this`tasks, this`missed
      ensures (Now(), found) == Observe(rules, old(Now()), id, symbol)
      ensures id in old(tasks) && IsActive(old(tasks)[id].state) ==>
                && found == PrintOf(rules, old(tasks)[id].pinned.workspace, symbol)
                && tasks == old(tasks)[id := old(tasks)[id].(readSet := tasks[id].readSet)]
                && SymbolRecorded(old(tasks)[id].readSet, tasks[id].readSet, symbol, found)
    {
      hide SymbolRecorded, PrintOf;
      if id !in tasks || !IsActive(tasks[id].state) { return None; }
      ReadRecords(rules, Now(), id, symbol);
      var task := tasks[id];
      found := PrintOf(rules, task.pinned.workspace, symbol);
      if found.Some? {
        tasks := tasks[id := task.(readSet := task.readSet.(symbols := task.readSet.symbols[symbol := found.value]))];
      } else {
        missed := missed[id := MissedBy(Now(), id) + {symbol}];
      }
    }

    method RunQuery(id: Id, query: Query) returns (answer: Option<nat>)
      modifies this`tasks
      ensures (Now(), answer) == Ask(rules, old(Now()), id, query)
      ensures id in old(tasks) && IsActive(old(tasks)[id].state) ==>
                && answer == Some(rules.answer(old(tasks)[id].pinned.workspace, query))
                && tasks == old(tasks)[id := old(tasks)[id].(readSet := tasks[id].readSet)]
                && QueryRecorded(old(tasks)[id].readSet, tasks[id].readSet, query, answer.value)
    {
      hide QueryRecorded;
      if id !in tasks || !IsActive(tasks[id].state) { return None; }
      AskRecords(rules, Now(), id, query);
      var task := tasks[id];
      var fingerprint := rules.answer(task.pinned.workspace, query);
      tasks := tasks[id := task.(readSet := task.readSet.(queries := task.readSet.queries[query := fingerprint]))];
      answer := Some(fingerprint);
    }

    /** Invalidates every running worker but the committing one whose observations no longer hold. */
    method InvalidateStaleTasks(committing: Option<Id>, changed: seq<Symbol>)
      requires Lawful(rules)
      modifies this`tasks
      ensures tasks.Keys == old(tasks).Keys
      ensures forall id :: id in tasks ==>
                tasks[id] == if Some(id) == committing then old(tasks)[id]
                else SweptTask(rules, old(tasks)[id], changed, head.workspace)
    {
      hide CausesOf, Lawful;
      var left := tasks.Keys;
      while left != {}
        invariant left <= tasks.Keys == old(tasks).Keys
        invariant forall id :: id in left ==> tasks[id] == old(tasks)[id]
        invariant forall id :: id in tasks && id !in left ==>
                    tasks[id] == if Some(id) == committing then old(tasks)[id]
                    else SweptTask(rules, old(tasks)[id], changed, head.workspace)
        decreases left
      {
        var id :| id in left;
        left := left - {id};
        var task := tasks[id];
        if Some(id) != committing && !task.interactive && task.state.Running? {
          var causes := StaleCauses(rules, task.readSet, changed, head.workspace);
          if causes != [] {
            tasks := tasks[id := task.(state := Invalidated, note := Some(Note(causes, None)))];
          }
        }
      }
    }

    /** The commit protocol, from the task's state to the outcome. */
    method ProcessCommit(request: Request, persists: bool, installs: bool)
      returns (outcome: Outcome, ghost verdict: Verdict, ghost changed: seq<Symbol>)
      requires Lawful(rules)
      modifies this
      ensures Legal(rules, old(Now()), SubmitStep(request, verdict, changed, persists, true, installs))
      ensures verdict.Passed? && outcome.Accepted? && !outcome.replayed ==>
                Differing(rules, old(head).workspace, verdict.workspace, changed)
      ensures (outcome, Now()) == Submit(rules, old(Now()), request, verdict, changed, persists, true, installs)
    {
      hide Answers, Published, Lawful, RefusedTask, Differing;
      verdict, changed := Refused(TaskUnknown), [];
      if request.task !in tasks { return Rejected(TaskUnknown), verdict, changed; }
      if (request.task, request.nonce) in nonces {
        GateAnswers(rules, tasks[request.task], request, head);
        verdict :| Answers(rules, tasks[request.task], request, head, verdict);
        return Accepted(nonces[(request.task, request.nonce)], true), verdict, changed;
      }
      var task := tasks[request.task];
      match task.state {
        case Running => tasks := tasks[request.task := task.(state := Committing)];
        case Invalidated =>
          tasks := tasks[request.task := task.(note := WithPatch(task.note, request.patch))];
          return Rejected(TaskInvalidated), verdict, changed;
        case _ => return Rejected(TaskNotRunning(task.state)), verdict, changed;
      }
      var judged := Judge(rules, task, request, head);
      verdict := judged;
      if judged.Refused? {
        tasks := tasks[request.task := RefusedTask(task, judged.rejection, request.patch)];
        assert tasks == old(tasks)[request.task := RefusedTask(task, judged.rejection, request.patch)];
        return Rejected(judged.rejection), verdict, changed;
      }
      if !persists {
        tasks := tasks[request.task := RefusedTask(task, DraftValidationFailed, request.patch)];
        assert tasks == old(tasks)[request.task := RefusedTask(task, DraftValidationFailed, request.patch)];
        return Rejected(DraftValidationFailed), verdict, changed;
      }
      assert tasks[request.task := task] == old(tasks);
      changed := Publish(task, request, judged.workspace, installs);
      outcome := Accepted(nonces[(request.task, request.nonce)], false);
    }

    /** Publishes a commit the gate passed, sweeps, and lets a session go on. */
    method Publish(task: Task, request: Request, workspace: State, installs: bool) returns (ghost changed: seq<Symbol>)
      requires Lawful(rules) && request.task in tasks && tasks[request.task] == task.(state := Committing)
      modifies this
      ensures Get(nonces, (request.task, request.nonce)) == Some(old(head).revision + 1)
      ensures Differing(rules, old(head).workspace, workspace, changed)
      ensures Now() ==
              Published(rules, old(Now()).(tasks := old(tasks)[request.task := task]), request, workspace, changed,
                true, installs)
    {
      hide Swept, SweptTask, Lawful, Spawn;
      var parent := head;
      var differing := ChangedSymbols(rules, parent.workspace, workspace);
      changed := differing;
      nonces := nonces[(request.task, request.nonce) := parent.revision + 1];
      head := Snapshot(parent.revision + 1, workspace);
      log := log + [Commit(task, request, parent, head)];
      InvalidateStaleTasks(Some(request.task), differing);
      tasks := tasks[request.task := task.(state := Committed)];
      SweptThenCommitted(rules, old(tasks)[request.task := task], tasks, request.task, differing, head.workspace);
      if task.interactive { SpawnSuccessor(task, installs); }
    }

    /** Rolls every live session, in the order of their ids. */
    method MoveInteractiveSessions(fails: set<Id>) returns (ghost sessions: seq<Id>)
      requires forall id :: id in tasks ==> id < issued
      modifies this`tasks, this`issued, this`tokens
      ensures Now() == RollAll(old(Now()), sessions, fails)
      ensures forall id :: id in sessions <==> IsSession(old(Now()), id)
    {
      sessions := [];
      var left := set id | id in tasks && tasks[id].interactive && tasks[id].state.Running?;
      ghost var all := left;
      while left != {}
        invariant left <= all && (forall id :: id in sessions <==> id in all - left)
        invariant Now() == RollAll(old(Now()), sessions, fails)
        invariant forall id :: id in left ==> IsSession(Now(), id)
        invariant forall id :: id in tasks ==> id < issued
        decreases left
      {
        var id :| id in left;
        left := left - {id};
        var task := tasks[id];
        ghost var before, listed := Now(), sessions;
        sessions := sessions + [id];
        assert sessions[..|sessions| - 1] == listed;
        tasks := tasks[id := task.(state := Invalidated)];
        SpawnSuccessor(task, id !in fails);
      }
    }

    /** Adopts an outside change: publishes it, sweeps, and moves the sessions. */
    method AdoptDiskChange(workspace: State, fails: set<Id>)
      returns (ghost changed: seq<Symbol>, ghost sessions: seq<Id>)
      requires Lawful(rules) && forall id :: id in tasks ==> id < issued
      modifies this
      ensures Now() == Adopt(rules, old(Now()), workspace, changed, true, sessions, fails)
      ensures Differing(rules, old(head).workspace, workspace, changed)
      ensures forall id :: id in sessions <==> IsSession(old(Now()), id)
      ensures head == Snapshot(old(head).revision + 1, workspace)
      ensures Holding(old(Now())) ==> SessionsMoved(old(Now()), Now(), fails)
      ensures Holding(old(Now())) ==>
                forall id :: id in old(tasks) && !IsSession(old(Now()), id) ==>
                  id in tasks && tasks[id] == SweptTask(rules, old(tasks)[id], changed, workspace)
    {
      hide SweptTask, Lawful, Differing, SessionsMoved, MovedOn;
      var parent := head;
      var differing := ChangedSymbols(rules, parent.workspace, workspace);
      DifferingIs(rules, parent.workspace, workspace, differing);
      changed := differing;
      head := Snapshot(parent.revision + 1, workspace);
      log := log + [Disk(parent, head)];
      InvalidateStaleTasks(None, differing);
      assert tasks == Swept(rules, old(tasks), differing, workspace);
      SweptSessions(rules, old(tasks), differing, workspace);
      ghost var swept := Now();
      sessions := MoveInteractiveSessions(fails);
      if Holding(old(Now())) { AllMoved(rules, old(Now()), differing, swept, sessions, fails); }
    }

    /** One commit off the queue: outside changes first, then the commit, judged against the files as they are. */
    method CommitWorker(files: Files, request: Request, persists: bool, fails: set<Id>, installs: bool)
      returns (outcome: Outcome, ghost middle: Design, ghost verdict: Verdict, ghost changed: seq<Symbol>,
        ghost adoption: Step)
      requires Lawful(rules) && forall id :: id in tasks ==> id < issued
      modifies this
      ensures files.Unreadable? ==> outcome == Rejected(DraftValidationFailed) && Now() == old(Now())
      ensures files.Unchanged? ==> middle == old(Now())
      ensures files.Outside? ==>
                adoption.DiskStep? && adoption.workspace == files.workspace &&
                middle == Next(rules, old(Now()), adoption)
      ensures !files.Unreadable? ==>
                Legal(rules, middle, SubmitStep(request, verdict, changed, persists, true, installs)) &&
                (outcome, Now()) == Submit(rules, middle, request, verdict, changed, persists, true, installs)
    {
      hide Legal, Submit, Adopt, Lawful;
      verdict, changed, adoption, middle := Refused(TaskUnknown), [], FinishStep(0, Cancelled), Now();
      match files {
        case Unreadable => return Rejected(DraftValidationFailed), middle, verdict, changed, adoption;
        case Unchanged =>
        case Outside(workspace) =>
          ghost var touched, sessions := AdoptDiskChange(workspace, fails);
          adoption := DiskStep(workspace, touched, true, sessions, fails);
          middle := Now();
      }
      outcome, verdict, changed := ProcessCommit(request, persists, installs);
    }

    method RefreshSession(id: Id, installs: bool)
      modifies this`tasks, this`issued, this`tokens
      ensures Now() == Refresh(old(Now()), id, installs)
      ensures Holding(old(Now())) ==> Refreshed(old(Now()), Now(), id, installs)
    {
      hide Refreshed;
      if Holding(Now()) { RefreshMoves(Now(), id, installs); }
      if id !in tasks || !tasks[id].interactive || tasks[id].pinned.revision == head.revision ||
        !tasks[id].state.Running? { return; }
      var task := tasks[id];
      tasks := tasks[id := task.(state := Invalidated)];
      SpawnSuccessor(task, installs);
    }

    method FinishTask(id: Id, outcome: TaskState)
      modifies this`tasks, this`tokens
      ensures Now() == Finish(old(Now()), id, outcome)
    {
      if id !in tasks || !(IsActive(tasks[id].state) || tasks[id].state.Committed?) { return; }
      tasks := tasks[id := tasks[id].(state := outcome)];
      tokens := map t | t in tokens && tokens[t] != id :: tokens[t];
    }
  }

  lemma DifferingIs(rules: Rules, before: State, after: State, changed: seq<Symbol>)
    requires forall s :: s in changed <==> PrintOf(rules, before, s) != PrintOf(rules, after, s)
    ensures Differing(rules, before, after, changed)
  {
  }

  /** The gate always answers something. */
  lemma GateAnswers(rules: Rules, task: Task, request: Request, head: Snapshot)
    ensures exists verdict :: Answers(rules, task, request, head, verdict)
  {
    hide SymbolHolds, QueryHolds, Applied, WrittenHere, Observed;
    if Accepts(rules, task, request, head) {
      assert Answers(rules, task, request, head, Passed(Applied(rules, head.workspace, request.patch).value));
    } else {
      var rejection := Explanation(rules, task, request, head);
      assert Answers(rules, task, request, head, Refused(rejection));
    }
  }

  lemma Explanation(rules: Rules, task: Task, request: Request, head: Snapshot) returns (rejection: Rejection)
    requires !Accepts(rules, task, request, head)
    ensures Explains(rules, task, request, head, rejection)
  {
    hide SymbolHolds, QueryHolds, Applied, WrittenHere, Observed;
    var w := head.workspace;
    if request.base != task.pinned.revision {
      rejection := BaseRevisionMismatch;
    } else if !InScope(rules, task.scope, request.patch) {
      var m :| m in request.patch && !rules.permits(task.scope, m);
      rejection := WriteScopeViolation(WriteTarget(m));
    } else if !SymbolsHold(rules, task.readSet, w) {
      var s :| s in task.readSet.symbols && !SymbolHolds(rules, task.readSet, w, s);
      rejection := ReadConflict(s, PrintOf(rules, w, s));
    } else if !QueriesHold(rules, task.readSet, w) {
      var q :| q in task.readSet.queries && !QueryHolds(rules, task.readSet, w, q);
      rejection := if q.GraphQuery? then PhantomConflict(q) else SearchConflict(q);
    } else if !TargetsHold(rules, request.patch, task.pinned.workspace, w) {
      var t :| t in Footprints(request.patch) && PrintOf(rules, task.pinned.workspace, t) != PrintOf(rules, w, t);
      rejection := WriteConflict(t);
    } else if !ReferencesRead(rules, task.readSet, request.patch) {
      var r :| r in rules.collect(request.patch) && !WrittenHere(Footprints(request.patch), r) &&
        !Observed(task.readSet, r);
      rejection := UnobservedDependency(r);
    } else {
      rejection := DraftValidationFailed;
    }
  }

  /** Sweeping all but the committing task and then marking it committed is sweeping once it is. */
  lemma SweptThenCommitted(rules: Rules, before: map<Id, Task>, after: map<Id, Task>, id: Id, changed: seq<Symbol>,
      w: State)
    requires Lawful(rules) && id in before && after.Keys == before.Keys && after[id] == before[id].(state := Committed)
    requires forall other :: other in after && other != id ==>
               after[other] == SweptTask(rules, before[other], changed, w)
    ensures after == Swept(rules, before[id := before[id].(state := Committed)], changed, w)
  {
    hide CausesOf, Lawful;
  }

  /** The sweep leaves sessions alone. */
  lemma SweptSessions(rules: Rules, tasks: map<Id, Task>, changed: seq<Symbol>, w: State)
    requires Lawful(rules)
    ensures Swept(rules, tasks, changed, w).Keys == tasks.Keys
    ensures forall id :: id in tasks ==>
              (Swept(rules, tasks, changed, w)[id].interactive &&
                Swept(rules, tasks, changed, w)[id].state.Running? <==>
               tasks[id].interactive && tasks[id].state.Running?)
  {
    hide CausesOf, Lawful;
  }
}
