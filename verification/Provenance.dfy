/**
 Provenance: the roots where a binding's value enters the modeled world, found by a walk that visits
 each binding and each effect once, whichever path of it is asked for.
 */
module Provenance {
  import opened Common

  type Id = nat

  type Path = seq<string>

  datatype Variant = IsOk | IsErr

  datatype Source =
    | Input(input: Id)
    | Subject(machine: Id)
    | TransactionRead(bind: Id)
    | TransactionOutput(binding: Id)
    | Effect(effect: Id)
    | ResultOk(binding: Id)
    | ResultErr(binding: Id)

  datatype ValueRef = ValueRef(source: Source, path: Path)

  datatype Derivation = Unspecified | Deterministic(from: seq<ValueRef>)

  datatype Read = Read(bind: Id, target: Id)

  /** A transaction by its id and its reads, in step order. */
  datatype Transaction = Transaction(id: Id, observed: seq<Read>)

  datatype Site =
    | EffectResult(effect: Id)
    | IntentResult(intent: Id)
    | Intent(effect: Id, values: Derivation, transaction: Transaction)
    | TransitionIntent(sideEffect: Id, values: Derivation, transaction: Transaction)
    | Output(values: Derivation, transaction: Transaction)

  datatype EffectValues = EffectValues(values: Derivation, transaction: Option<Transaction>)

  datatype Program = Program(bindings: map<Id, Site>, effects: map<Id, EffectValues>)

  datatype Place =
    | NoProgram
    | UnresolvedBinding(binding: Id)
    | UnresolvedIntent(intent: Id)
    | UnresolvedRead(bind: Id)
    | UnresolvedEffect(effect: Id)
    | UnresolvedResult(binding: Id)
    | AtIntent(effect: Id)
    | AtTransitionIntent(sideEffect: Id)
    | AtOutput(transaction: Id)
    | AtEffect(effect: Id)

  datatype Root =
    | InputRoot(input: Id, path: Path)
    | SubjectRoot(machine: Id, path: Path)
    | ObjectRead(transaction: Id, target: Id, path: Path)
    | ResultRoot(effect: Id, variant: Option<Variant>, path: Path)
    | UnspecifiedRoot(at: Place)

  datatype Visit = BindingSeen(binding: Id) | EffectSeen(effect: Id)

  /** What the walk is asked: a binding at a path, or a reference made inside a transaction or outside any. */
  datatype Goal = Bound(binding: Id, path: Path) | Ref(reference: ValueRef, transaction: Option<Transaction>)

  function Parts(values: Derivation, transaction: Option<Transaction>): (goals: seq<Goal>)
    ensures values.Deterministic? ==> |goals| == |values.from|
    ensures forall i :: 0 <= i < |goals| ==> values.Deterministic? && goals[i] == Ref(values.from[i], transaction)
  {
    if values.Unspecified? then [] else
    seq(|values.from|, i requires 0 <= i < |values.from| => Ref(values.from[i], transaction))
  }

  /** What a goal's answer is derived from. */
  function Nexts(p: Program, goal: Goal): seq<Goal> {
    match goal
    case Bound(binding, _) =>
      if binding !in p.bindings || p.bindings[binding].EffectResult? || p.bindings[binding].IntentResult? then []
      else Parts(p.bindings[binding].values, Some(p.bindings[binding].transaction))
    case Ref(reference, _) =>
      match reference.source
      case TransactionOutput(binding) => [Bound(binding, reference.path)]
      case Effect(effect) =>
        if effect !in p.effects then [] else Parts(p.effects[effect].values, p.effects[effect].transaction)
      case _ => []
  }

  /** The effect whose execution a result binding observes, if it resolves to one. */
  function EffectOf(p: Program, binding: Id): Option<Id> {
    if binding !in p.bindings then None else
    match p.bindings[binding]
    case EffectResult(effect) => Some(effect)
    case IntentResult(intent) =>
      if intent !in p.bindings then None
      else if p.bindings[intent].Intent? then Some(p.bindings[intent].effect)
      else if p.bindings[intent].TransitionIntent? then Some(p.bindings[intent].sideEffect)
      else None
    case _ => None
  }

  function FirstRead(observed: seq<Read>, bind: Id): Option<Id> {
    if observed == [] then None
    else if observed[0].bind == bind then Some(observed[0].target)
    else FirstRead(observed[1..], bind)
  }

  function PlaceOf(site: Site): Place
    requires !site.EffectResult? && !site.IntentResult?
  {
    match site
    case Intent(effect, _, _) => AtIntent(effect)
    case TransitionIntent(sideEffect, _, _) => AtTransitionIntent(sideEffect)
    case Output(_, transaction) => AtOutput(transaction.id)
  }

  /** The root a goal is itself, if it is one. */
  function Own(p: Program, goal: Goal): Option<Root> {
    match goal
    case Bound(binding, path) =>
      if binding !in p.bindings then Some(UnspecifiedRoot(UnresolvedBinding(binding)))
      else if p.bindings[binding].EffectResult? || p.bindings[binding].IntentResult? then
        if EffectOf(p, binding).Some? then Some(ResultRoot(EffectOf(p, binding).value, None, path))
        else Some(UnspecifiedRoot(UnresolvedIntent(p.bindings[binding].intent)))
      else if p.bindings[binding].values.Unspecified? then Some(UnspecifiedRoot(PlaceOf(p.bindings[binding])))
      else None
    case Ref(reference, transaction) =>
      match reference.source
      case Input(input) => Some(InputRoot(input, reference.path))
      case Subject(machine) => Some(SubjectRoot(machine, reference.path))
      case TransactionRead(bind) =>
        var target := if transaction.Some? then FirstRead(transaction.value.observed, bind) else None;
        if target.Some? then Some(ObjectRead(transaction.value.id, target.value, reference.path))
        else Some(UnspecifiedRoot(UnresolvedRead(bind)))
      case TransactionOutput(_) => None
      case Effect(effect) =>
        if effect !in p.effects then Some(UnspecifiedRoot(UnresolvedEffect(effect)))
        else if p.effects[effect].values.Unspecified? then Some(UnspecifiedRoot(AtEffect(effect)))
        else None
      case ResultOk(binding) => Some(ResultAnswer(p, binding, IsOk, reference.path))
      case ResultErr(binding) => Some(ResultAnswer(p, binding, IsErr, reference.path))
  }

  function ResultAnswer(p: Program, binding: Id, variant: Variant, path: Path): Root {
    if EffectOf(p, binding).Some? then ResultRoot(EffectOf(p, binding).value, Some(variant), path)
    else UnspecifiedRoot(UnresolvedResult(binding))
  }

  /** Whether a result binding observes an effect: directly, or through the intent that captured it. */
  predicate Observes(p: Program, binding: Id, effect: Id) {
    binding in p.bindings &&
    var site := p.bindings[binding];
    || site == EffectResult(effect)
    || (site.IntentResult? && site.intent in p.bindings &&
        var captured := p.bindings[site.intent];
        (captured.Intent? && captured.effect == effect) ||
        (captured.TransitionIntent? && captured.sideEffect == effect))
  }

  /** The first read that binds a name. */
  predicate ReadFirst(observed: seq<Read>, bind: Id, i: nat) {
    i < |observed| && observed[i].bind == bind && forall j :: 0 <= j < i ==> observed[j].bind != bind
  }

  /** A binding whose site says nothing of the values it derives. */
  predicate Unsaid(p: Program, goal: Goal) {
    && goal.Bound? && goal.binding in p.bindings
    && var site := p.bindings[goal.binding];
       !site.EffectResult? && !site.IntentResult? && site.values == Unspecified
  }

  /** What each kind of root says of the goal that is it. */
  ghost predicate RootTells(p: Program, goal: Goal, root: Root) {
    match root
    case InputRoot(input, path) => goal.Ref? && goal.reference == ValueRef(Input(input), path)
    case SubjectRoot(machine, path) => goal.Ref? && goal.reference == ValueRef(Subject(machine), path)
    case ObjectRead(id, target, path) =>
      && goal.Ref? && goal.reference.source.TransactionRead? && goal.reference.path == path
      && goal.transaction.Some? && goal.transaction.value.id == id
      && var observed := goal.transaction.value.observed;
         exists i: nat :: ReadFirst(observed, goal.reference.source.bind, i) && observed[i].target == target
    case ResultRoot(effect, None, path) => goal.Bound? && goal.path == path && Observes(p, goal.binding, effect)
    case ResultRoot(effect, Some(IsOk), path) =>
      goal.Ref? && goal.reference.source.ResultOk? && goal.reference.path == path &&
      Observes(p, goal.reference.source.binding, effect)
    case ResultRoot(effect, Some(IsErr), path) =>
      goal.Ref? && goal.reference.source.ResultErr? && goal.reference.path == path &&
      Observes(p, goal.reference.source.binding, effect)
    case UnspecifiedRoot(at) => GapTells(p, goal, at)
  }

  /** And each kind of place where the model says nothing, or names what is not there. */
  ghost predicate GapTells(p: Program, goal: Goal, at: Place) {
    match at
    case NoProgram => false
    case UnresolvedBinding(binding) => goal.Bound? && goal.binding == binding && binding !in p.bindings
    case UnresolvedIntent(intent) =>
      && goal.Bound? && goal.binding in p.bindings && p.bindings[goal.binding] == IntentResult(intent)
      && forall effect :: !Observes(p, goal.binding, effect)
    case UnresolvedRead(bind) =>
      && goal.Ref? && goal.reference.source == TransactionRead(bind)
      && (goal.transaction.Some? ==> forall read :: read in goal.transaction.value.observed ==> read.bind != bind)
    case UnresolvedEffect(effect) => goal.Ref? && goal.reference.source == Effect(effect) && effect !in p.effects
    case UnresolvedResult(binding) =>
      && goal.Ref? && (goal.reference.source == ResultOk(binding) || goal.reference.source == ResultErr(binding))
      && forall effect :: !Observes(p, binding, effect)
    case AtIntent(effect) =>
      Unsaid(p, goal) && p.bindings[goal.binding].Intent? && p.bindings[goal.binding].effect == effect
    case AtTransitionIntent(sideEffect) =>
      Unsaid(p, goal) && p.bindings[goal.binding].TransitionIntent? && p.bindings[goal.binding].sideEffect == sideEffect
    case AtOutput(id) =>
      Unsaid(p, goal) && p.bindings[goal.binding].Output? && p.bindings[goal.binding].transaction.id == id
    case AtEffect(effect) =>
      && goal.Ref? && goal.reference.source == Effect(effect)
      && effect in p.effects && p.effects[effect].values == Unspecified
  }

  lemma ObservesIs(p: Program, binding: Id, effect: Id)
    ensures EffectOf(p, binding) == Some(effect) <==> Observes(p, binding, effect)
  {
  }

  lemma ObservesNone(p: Program, binding: Id)
    ensures EffectOf(p, binding) == None <==> forall effect :: !Observes(p, binding, effect)
  {
    if EffectOf(p, binding).Some? { ObservesIs(p, binding, EffectOf(p, binding).value); }
    forall effect | Observes(p, binding, effect) ensures EffectOf(p, binding).Some? { ObservesIs(p, binding, effect); }
  }

  lemma {:induction false} FirstReadIs(observed: seq<Read>, bind: Id, target: Id)
    ensures FirstRead(observed, bind) == Some(target) <==>
            exists i: nat :: ReadFirst(observed, bind, i) && observed[i].target == target
    ensures FirstRead(observed, bind) == None <==> forall read :: read in observed ==> read.bind != bind
  {
    if observed != [] {
      var rest := observed[1..];
      FirstReadIs(rest, bind, target);
      assert observed == [observed[0]] + rest;
      if observed[0].bind == bind {
        assert ReadFirst(observed, bind, 0);
      } else {
        forall i: nat ensures ReadFirst(observed, bind, i + 1) <==> ReadFirst(rest, bind, i) {
          assert i < |rest| ==> observed[i + 1] == rest[i];
          if ReadFirst(observed, bind, i + 1) {
            forall j | 0 <= j < i ensures rest[j].bind != bind { assert observed[j + 1].bind != bind; }
          }
        }
        if exists i: nat :: ReadFirst(observed, bind, i) && observed[i].target == target {
          var i: nat :| ReadFirst(observed, bind, i) && observed[i].target == target;
          assert ReadFirst(rest, bind, i - 1) && rest[i - 1].target == target;
        }
        if exists i: nat :: ReadFirst(rest, bind, i) && rest[i].target == target {
          var i: nat :| ReadFirst(rest, bind, i) && rest[i].target == target;
          assert ReadFirst(observed, bind, i + 1) && observed[i + 1].target == target;
        }
      }
    }
  }

  /** A goal is a root of its own exactly when that is what the root says of it. */
  lemma RootIs(p: Program, goal: Goal, root: Root)
    ensures Own(p, goal) == Some(root) <==> RootTells(p, goal, root)
  {
    match goal
    case Bound(binding, _) =>
      ObservesNone(p, binding);
      if root.ResultRoot? { ObservesIs(p, binding, root.effect); }
      hide Observes;
    case Ref(reference, transaction) =>
      if reference.source.ResultOk? || reference.source.ResultErr? {
        ObservesNone(p, reference.source.binding);
        if root.ResultRoot? { ObservesIs(p, reference.source.binding, root.effect); }
      }
      if reference.source.TransactionRead? && transaction.Some? {
        FirstReadIs(transaction.value.observed, reference.source.bind, if root.ObjectRead? then root.target else 0);
      }
      hide Observes, ReadFirst, FirstRead, EffectOf;
  }

  /** What a goal is derived from: the references its values are made of, each made where the values are. */
  ghost predicate DerivedFrom(p: Program, goal: Goal, next: Goal) {
    if goal.Bound? then
      && goal.binding in p.bindings
      && var site := p.bindings[goal.binding];
         && !site.EffectResult? && !site.IntentResult? && site.values.Deterministic?
         && next.Ref? && next.reference in site.values.from && next.transaction == Some(site.transaction)
    else if goal.reference.source.TransactionOutput? then
      next == Bound(goal.reference.source.binding, goal.reference.path)
    else
      && goal.reference.source.Effect? && goal.reference.source.effect in p.effects
      && var made := p.effects[goal.reference.source.effect];
         && made.values.Deterministic? && next.Ref?
         && next.reference in made.values.from && next.transaction == made.transaction
  }

  lemma NextIs(p: Program, goal: Goal, next: Goal)
    ensures next in Nexts(p, goal) <==> DerivedFrom(p, goal, next)
  {
    if DerivedFrom(p, goal, next) {
      if goal.Bound? {
        var from := p.bindings[goal.binding].values.from;
        var i :| 0 <= i < |from| && from[i] == next.reference;
        assert Nexts(p, goal)[i] == next;
      } else if goal.reference.source.Effect? {
        var from := p.effects[goal.reference.source.effect].values.from;
        var i :| 0 <= i < |from| && from[i] == next.reference;
        assert Nexts(p, goal)[i] == next;
      }
    }
  }

  /** Whether a goal is derived from another in `n` steps. */
  ghost predicate ReachedIn(p: Program, start: Goal, goal: Goal, n: nat)
    decreases n
  {
    if n == 0 then goal == start else exists g :: ReachedIn(p, start, g, n - 1) && goal in Nexts(p, g)
  }

  ghost predicate Reached(p: Program, start: Goal, goal: Goal) {
    exists n: nat :: ReachedIn(p, start, goal, n)
  }

  lemma ReachedNext(p: Program, start: Goal, goal: Goal, next: Goal)
    requires Reached(p, start, goal) && next in Nexts(p, goal)
    ensures Reached(p, start, next)
  {
    var n: nat :| ReachedIn(p, start, goal, n);
    assert ReachedIn(p, start, next, n + 1);
  }

  lemma ReachedParts(p: Program, start: Goal, goal: Goal, parts: seq<Goal>)
    requires Reached(p, start, goal) && Nexts(p, goal) == parts
    ensures forall i :: 0 <= i < |parts| ==> Reached(p, start, parts[i])
  {
    forall i | 0 <= i < |parts| ensures Reached(p, start, parts[i]) { ReachedNext(p, start, goal, parts[i]); }
  }

  /** A goal whose answer the walk has, or has set out for. */
  ghost predicate Answered(p: Program, goal: Goal, visited: set<Visit>, roots: seq<Root>) {
    match goal
    case Bound(binding, _) => BindingSeen(binding) in visited
    case Ref(reference, _) =>
      match reference.source
      case TransactionOutput(binding) => BindingSeen(binding) in visited
      case Effect(effect) => EffectSeen(effect) in visited
      case _ => Own(p, goal).value in roots
  }

  function GoalOf(visit: Visit, path: Path): Goal {
    match visit
    case BindingSeen(binding) => Bound(binding, path)
    case EffectSeen(effect) => Ref(ValueRef(Effect(effect), []), None)
  }

  /** A visit followed up: its own root taken, and everything it is derived from answered. */
  ghost predicate Settled(p: Program, visit: Visit, path: Path, visited: set<Visit>, roots: seq<Root>) {
    && (Own(p, GoalOf(visit, path)).Some? ==> Own(p, GoalOf(visit, path)).value in roots)
    && forall i :: 0 <= i < |Nexts(p, GoalOf(visit, path))| ==>
         Answered(p, Nexts(p, GoalOf(visit, path))[i], visited, roots)
  }

  /** A root that a goal reached is: for a binding, at the path the walk entered it by. */
  ghost predicate Earned(p: Program, start: Goal, entered: map<Id, Path>, root: Root) {
    exists g {:trigger Reached(p, start, g)} ::
      Reached(p, start, g) && Own(p, g) == Some(root) &&
      (g.Bound? ==> g.binding in entered && entered[g.binding] == g.path)
  }

  ghost predicate Entered(p: Program, start: Goal, visited: set<Visit>, entered: map<Id, Path>) {
    forall b ::
      (BindingSeen(b) in visited <==> b in entered) && (b in entered ==> Reached(p, start, Bound(b, entered[b])))
  }

  function Known(p: Program): set<Visit> {
    (set b | b in p.bindings :: BindingSeen(b)) + (set e | e in p.effects :: EffectSeen(e))
  }

  function EnteredBy(entered: map<Id, Path>, visit: Visit): Path {
    if visit.BindingSeen? && visit.binding in entered then entered[visit.binding] else []
  }

  datatype State = State(visited: set<Visit>, roots: seq<Root>, entered: map<Id, Path>)

  /** Nothing found is lost, and every visit made in between is followed up. */
  ghost predicate Follows(p: Program, was: State, now: State) {
    && was.visited <= now.visited && was.roots <= now.roots
    && (forall b :: b in was.entered ==> b in now.entered && now.entered[b] == was.entered[b])
    && forall v :: v in now.visited && v !in was.visited ==>
         Settled(p, v, EnteredBy(now.entered, v), now.visited, now.roots)
  }

  lemma SettledStill(p: Program, visit: Visit, path: Path, was: State, now: State)
    requires Settled(p, visit, path, was.visited, was.roots) && was.visited <= now.visited && was.roots <= now.roots
    ensures Settled(p, visit, path, now.visited, now.roots)
  {
    hide Own, Nexts, Answered;
    var nexts := Nexts(p, GoalOf(visit, path));
    forall i | 0 <= i < |nexts| ensures Answered(p, nexts[i], now.visited, now.roots) {
      AnsweredStill(p, nexts[i], was.visited, now.visited, was.roots, now.roots);
    }
  }

  lemma FollowsOn(p: Program, a: State, b: State, c: State)
    requires Follows(p, a, b) && Follows(p, b, c)
    requires forall v: Visit :: v.BindingSeen? && v in b.visited ==> v.binding in b.entered
    ensures Follows(p, a, c)
  {
    hide Settled;
    forall v | v in c.visited && v !in a.visited ensures Settled(p, v, EnteredBy(c.entered, v), c.visited, c.roots) {
      if v in b.visited { SettledStill(p, v, EnteredBy(b.entered, v), b, c); }
    }
  }

  class Walker {
    const program: Program
    ghost const start: Goal
    var visited: set<Visit>
    var roots: seq<Root>
    ghost var entered: map<Id, Path>

    constructor (program: Program, ghost start: Goal)
      ensures this.program == program && this.start == start && visited == {} && roots == [] && entered == map[]
    {
      this.program, this.start := program, start;
      visited, roots, entered := {}, [], map[];
    }

    /** Only roots of goals reached, and only goals reached are entered. */
    ghost predicate Sound()
      reads this
    {
      && Entered(program, start, visited, entered)
      && forall r :: r in roots ==> Earned(program, start, entered, r)
    }

    ghost function Now(): State
      reads this
    {
      State(visited, roots, entered)
    }

    method Push(root: Root, ghost goal: Goal)
      requires Sound() && Reached(program, start, goal) && Own(program, goal) == Some(root)
      requires goal.Bound? ==> goal.binding in entered && entered[goal.binding] == goal.path
      modifies this`roots
      ensures Sound() && roots == old(roots) + [root]
    {
      roots := roots + [root];
      forall r | r in roots ensures Earned(program, start, entered, r) {
        if r == root { assert Reached(program, start, goal); }
      }
    }

    method Enter(binding: Id, path: Path)
      requires Sound() && Reached(program, start, Bound(binding, path)) && BindingSeen(binding) !in visited
      modifies this`visited, this`entered
      ensures Sound() && visited == old(visited) + {BindingSeen(binding)}
      ensures binding !in old(entered) && entered == old(entered)[binding := path]
    {
      hide Reached, Own;
      ghost var was := entered;
      visited := visited + {BindingSeen(binding)};
      entered := entered[binding := path];
      forall r | r in roots ensures Earned(program, start, entered, r) {
        assert Earned(program, start, was, r);
        EarnedStill(program, start, was, entered, r);
      }
    }

    method Binding(binding: Id, path: Path)
      requires Sound() && Reached(program, start, Bound(binding, path))
      modifies this
      ensures Sound() && Follows(program, old(Now()), Now()) && BindingSeen(binding) in visited
      decreases Known(program) - visited, 0
    {
      hide Own, Nexts, Reached, Answered, Known, Earned, Entered, EffectOf;
      if BindingSeen(binding) in visited { return; }
      Enter(binding, path);
      ghost var goal := Bound(binding, path);
      BoundIs(program, binding, path);
      if binding !in program.bindings {
        Push(UnspecifiedRoot(UnresolvedBinding(binding)), goal);
      } else {
        Shrinks(program, old(visited), BindingSeen(binding));
        var site := program.bindings[binding];
        match site {
          case EffectResult(effect) => Push(ResultRoot(effect, None, path), goal);
          case IntentResult(intent) =>
            if intent in program.bindings && program.bindings[intent].Intent? {
              Push(ResultRoot(program.bindings[intent].effect, None, path), goal);
            } else if intent in program.bindings && program.bindings[intent].TransitionIntent? {
              Push(ResultRoot(program.bindings[intent].sideEffect, None, path), goal);
            } else {
              Push(UnspecifiedRoot(UnresolvedIntent(intent)), goal);
            }
          case Intent(effect, values, transaction) => Derive(values, Some(transaction), AtIntent(effect), goal);
          case TransitionIntent(sideEffect, values, transaction) =>
            Derive(values, Some(transaction), AtTransitionIntent(sideEffect), goal);
          case Output(values, transaction) => Derive(values, Some(transaction), AtOutput(transaction.id), goal);
        }
      }
    }

    /** Takes a derivation's root, or follows each of its references. */
    method Derive(values: Derivation, transaction: Option<Transaction>, at: Place, ghost goal: Goal)
      requires Sound() && Reached(program, start, goal)
      requires goal.Bound? ==> goal.binding in entered && entered[goal.binding] == goal.path
      requires Nexts(program, goal) == Parts(values, transaction)
      requires Own(program, goal) == if values.Unspecified? then Some(UnspecifiedRoot(at)) else None
      modifies this
      ensures Sound() && Follows(program, old(Now()), Now())
      ensures Own(program, goal).Some? ==> Own(program, goal).value in roots
      ensures forall i :: 0 <= i < |Nexts(program, goal)| ==> Answered(program, Nexts(program, goal)[i], visited, roots)
      decreases Known(program) - visited, 2
    {
      hide Own, Nexts, Reached, Answered, Known, Earned, Entered, EffectOf;
      match values {
        case Unspecified => Push(UnspecifiedRoot(at), goal);
        case Deterministic(from) =>
          ghost var parts := Parts(values, transaction);
          ReachedParts(program, start, goal, parts);
          for i := 0 to |from|
            invariant Sound() && Follows(program, old(Now()), Now())
            invariant forall j :: 0 <= j < i ==> Answered(program, parts[j], visited, roots)
          {
            ghost var before := Now();
            assert Known(program) - visited <= Known(program) - old(visited);
            Value(from[i], transaction);
            EnteredVisited(program, start, before.visited, before.entered);
            FollowsOn(program, old(Now()), before, Now());
            forall j | 0 <= j < i ensures Answered(program, parts[j], visited, roots) {
              AnsweredStill(program, parts[j], before.visited, visited, before.roots, roots);
            }
          }
      }
    }

    method Value(reference: ValueRef, transaction: Option<Transaction>)
      requires Sound() && Reached(program, start, Ref(reference, transaction))
      modifies this
      ensures Sound() && Follows(program, old(Now()), Now()) &&
              Answered(program, Ref(reference, transaction), visited, roots)
      decreases Known(program) - visited, 1
    {
      hide Reached, Known, Earned, Entered, EffectOf;
      ghost var goal := Ref(reference, transaction);
      match reference.source {
        case Input(input) => Push(InputRoot(input, reference.path), goal);
        case Subject(machine) => Push(SubjectRoot(machine, reference.path), goal);
        case TransactionRead(bind) =>
          var target := None;
          if transaction.Some? { target := FirstRead(transaction.value.observed, bind); }
          if target.Some? {
            Push(ObjectRead(transaction.value.id, target.value, reference.path), goal);
          } else {
            Push(UnspecifiedRoot(UnresolvedRead(bind)), goal);
          }
        case TransactionOutput(binding) =>
          ReachedNext(program, start, goal, Bound(binding, reference.path));
          Binding(binding, reference.path);
        case Effect(effect) => Follow(effect, goal);
        case ResultOk(binding) => Push(ResultAnswer(program, binding, IsOk, reference.path), goal);
        case ResultErr(binding) => Push(ResultAnswer(program, binding, IsErr, reference.path), goal);
      }
    }

    /** Follows an effect's values, once. */
    method Follow(effect: Id, ghost goal: Goal)
      requires Sound() && Reached(program, start, goal) && goal.Ref? && goal.reference.source == Effect(effect)
      modifies this
      ensures Sound() && Follows(program, old(Now()), Now()) && EffectSeen(effect) in visited
      decreases Known(program) - visited, 0
    {
      EffectIs(program, effect, goal);
      hide Own, Nexts, Reached, Answered, Known, Earned, EffectOf;
      if EffectSeen(effect) in visited { return; }
      visited := visited + {EffectSeen(effect)};
      hide Entered;
      if effect in program.effects {
        Shrinks(program, old(visited), EffectSeen(effect));
        Derive(program.effects[effect].values, program.effects[effect].transaction, AtEffect(effect), goal);
      } else {
        Push(UnspecifiedRoot(UnresolvedEffect(effect)), goal);
      }
    }
  }

  lemma EnteredVisited(p: Program, start: Goal, visited: set<Visit>, entered: map<Id, Path>)
    requires Entered(p, start, visited, entered)
    ensures forall v: Visit :: v.BindingSeen? && v in visited ==> v.binding in entered
  {
  }

  lemma EarnedStill(p: Program, start: Goal, was: map<Id, Path>, entered: map<Id, Path>, r: Root)
    requires Earned(p, start, was, r) && forall b :: b in was ==> b in entered && entered[b] == was[b]
    ensures Earned(p, start, entered, r)
  {
  }

  lemma AnsweredStill(p: Program, goal: Goal, was: set<Visit>, visited: set<Visit>, before: seq<Root>, roots: seq<Root>)
    requires Answered(p, goal, was, before) && was <= visited && before <= roots
    ensures Answered(p, goal, visited, roots)
  {
  }

  lemma BoundIs(p: Program, binding: Id, path: Path)
    ensures var goal := Bound(binding, path);
            if binding !in p.bindings then
              Own(p, goal) == Some(UnspecifiedRoot(UnresolvedBinding(binding))) && Nexts(p, goal) == []
            else match p.bindings[binding]
              case EffectResult(effect) => Own(p, goal) == Some(ResultRoot(effect, None, path)) && Nexts(p, goal) == []
              case IntentResult(intent) =>
                Nexts(p, goal) == [] &&
                Own(p, goal) == Some(
                  if intent in p.bindings && p.bindings[intent].Intent?
                  then ResultRoot(p.bindings[intent].effect, None, path)
                  else if intent in p.bindings && p.bindings[intent].TransitionIntent?
                       then ResultRoot(p.bindings[intent].sideEffect, None, path)
                  else UnspecifiedRoot(UnresolvedIntent(intent)))
              case Intent(_, values, transaction) =>
                DerivesAt(p, goal, values, transaction, PlaceOf(p.bindings[binding]))
              case TransitionIntent(_, values, transaction) =>
                DerivesAt(p, goal, values, transaction, PlaceOf(p.bindings[binding]))
              case Output(values, transaction) => DerivesAt(p, goal, values, transaction, PlaceOf(p.bindings[binding]))
  {
  }

  predicate DerivesAt(p: Program, goal: Goal, values: Derivation, transaction: Transaction, at: Place) {
    && Nexts(p, goal) == Parts(values, Some(transaction))
    && Own(p, goal) == if values.Unspecified? then Some(UnspecifiedRoot(at)) else None
  }

  lemma EffectIs(p: Program, effect: Id, goal: Goal)
    requires goal.Ref? && goal.reference.source == Effect(effect)
    ensures Nexts(p, goal) == Nexts(p, GoalOf(EffectSeen(effect), [])) &&
            Own(p, goal) == Own(p, GoalOf(EffectSeen(effect), []))
    ensures effect !in p.effects ==>
              Nexts(p, goal) == [] && Own(p, goal) == Some(UnspecifiedRoot(UnresolvedEffect(effect)))
    ensures effect in p.effects ==>
              Nexts(p, goal) == Parts(p.effects[effect].values, p.effects[effect].transaction) &&
              Own(p, goal) == if p.effects[effect].values.Unspecified? then Some(UnspecifiedRoot(AtEffect(effect)))
              else None
  {
  }

  lemma Shrinks(p: Program, visited: set<Visit>, visit: Visit)
    requires visit !in visited && if visit.BindingSeen? then visit.binding in p.bindings else visit.effect in p.effects
    ensures Known(p) - (visited + {visit}) < Known(p) - visited
  {
    assert visit in Known(p) - visited;
  }

  /** The roots of a binding of an operation's program, as the walk from its whole value finds them. */
  method ProvenanceRoots(program: Option<Program>, binding: Id) returns (roots: seq<Root>, ghost entered: map<Id, Path>)
    ensures program.None? ==> roots == [UnspecifiedRoot(NoProgram)]
    ensures program.Some? ==> Found(program.value, Bound(binding, []), entered, roots)
  {
    if program.None? { return [UnspecifiedRoot(NoProgram)], map[]; }
    ghost var start := Bound(binding, []);
    assert ReachedIn(program.value, start, start, 0);
    var walker := new Walker(program.value, start);
    walker.Binding(binding, []);
    roots, entered := walker.roots, walker.entered;
    FollowedFinds(program.value, start, walker.Now());
  }

  /** A result binding: its root names the path it is asked at. */
  predicate ResultBinding(p: Program, binding: Id) {
    EffectOf(p, binding).Some?
  }

  /** A goal whose own root the walk may pass over: a result binding it entered by another path. */
  predicate PassedOver(p: Program, entered: map<Id, Path>, goal: Goal) {
    goal.Bound? && ResultBinding(p, goal.binding) && goal.binding in entered && entered[goal.binding] != goal.path
  }

  /** What the walk finds: only roots of goals reached, and the root of every goal reached it does not pass over. */
  ghost predicate Found(p: Program, start: Goal, entered: map<Id, Path>, roots: seq<Root>) {
    && (forall r :: r in roots ==> Earned(p, start, entered, r))
    && (forall b :: b in entered ==> Reached(p, start, Bound(b, entered[b])))
    && (forall g :: Reached(p, start, g) && Own(p, g).Some? ==> Own(p, g).value in roots || PassedOver(p, entered, g))
  }

  ghost predicate AllSettled(p: Program, now: State) {
    && (forall v: Visit :: v in now.visited ==> Settled(p, v, EnteredBy(now.entered, v), now.visited, now.roots))
    && (forall v: Visit :: v.BindingSeen? && v in now.visited ==> v.binding in now.entered)
  }

  lemma NextsAtAnyPath(p: Program, goal: Goal, path: Path)
    ensures goal.Bound? ==> Nexts(p, goal) == Nexts(p, Bound(goal.binding, path))
    ensures goal.Bound? && !ResultBinding(p, goal.binding) ==> Own(p, goal) == Own(p, Bound(goal.binding, path))
  {
  }

  lemma NextsAnswered(p: Program, now: State, goal: Goal, next: Goal)
    requires AllSettled(p, now) && Answered(p, goal, now.visited, now.roots) && next in Nexts(p, goal)
    ensures Answered(p, next, now.visited, now.roots)
  {
    if goal.Bound? {
      var visit := BindingSeen(goal.binding);
      NextsAtAnyPath(p, goal, EnteredBy(now.entered, visit));
      assert Settled(p, visit, EnteredBy(now.entered, visit), now.visited, now.roots);
    } else if goal.reference.source.Effect? {
      EffectIs(p, goal.reference.source.effect, goal);
      assert Settled(p, EffectSeen(goal.reference.source.effect), [], now.visited, now.roots);
    }
  }

  lemma {:induction false} AllAnswered(p: Program, start: Goal, now: State, goal: Goal, n: nat)
    requires AllSettled(p, now) && Answered(p, start, now.visited, now.roots) && ReachedIn(p, start, goal, n)
    ensures Answered(p, goal, now.visited, now.roots)
    decreases n
  {
    hide AllSettled, Answered, Nexts;
    if n > 0 {
      var g :| ReachedIn(p, start, g, n - 1) && goal in Nexts(p, g);
      AllAnswered(p, start, now, g, n - 1);
      NextsAnswered(p, now, g, goal);
    }
  }

  lemma OwnFound(p: Program, now: State, goal: Goal)
    requires AllSettled(p, now) && Answered(p, goal, now.visited, now.roots) && Own(p, goal).Some?
    ensures Own(p, goal).value in now.roots || PassedOver(p, now.entered, goal)
  {
    if goal.Bound? {
      var visit := BindingSeen(goal.binding);
      assert Settled(p, visit, EnteredBy(now.entered, visit), now.visited, now.roots);
      NextsAtAnyPath(p, goal, EnteredBy(now.entered, visit));
    } else if goal.reference.source.Effect? {
      EffectIs(p, goal.reference.source.effect, goal);
      assert Settled(p, EffectSeen(goal.reference.source.effect), [], now.visited, now.roots);
    }
  }

  lemma FollowedFinds(p: Program, start: Goal, now: State)
    requires start.Bound? && BindingSeen(start.binding) in now.visited
    requires Follows(p, State({}, [], map[]), now) && Entered(p, start, now.visited, now.entered)
    requires forall r :: r in now.roots ==> Earned(p, start, now.entered, r)
    ensures Found(p, start, now.entered, now.roots)
  {
    EnteredVisited(p, start, now.visited, now.entered);
    assert AllSettled(p, now);
    assert forall b :: b in now.entered ==> Reached(p, start, Bound(b, now.entered[b]));
    hide AllSettled, Follows, Own, Nexts, Entered, Earned;
    assert Answered(p, start, now.visited, now.roots);
    forall g | Reached(p, start, g) && Own(p, g).Some?
      ensures Own(p, g).value in now.roots || PassedOver(p, now.entered, g)
    {
      var n: nat :| ReachedIn(p, start, g, n);
      AllAnswered(p, start, now, g, n);
      OwnFound(p, now, g);
    }
  }

  /** No root of a goal reached is missing. */
  ghost predicate Complete(p: Program, start: Goal, roots: seq<Root>) {
    forall g :: Reached(p, start, g) && Own(p, g).Some? ==> Own(p, g).value in roots
  }

  /** Two goals for one result binding. */
  predicate SameResult(p: Program, g: Goal, h: Goal) {
    g.Bound? && h.Bound? && g.binding == h.binding && ResultBinding(p, g.binding)
  }

  /** Every result binding is reached at one path only. */
  ghost predicate OnePath(p: Program, start: Goal) {
    forall g, h :: Reached(p, start, g) && Reached(p, start, h) && SameResult(p, g, h) ==> g == h
  }

  /** No two result bindings answer for one effect. */
  predicate ResultsApart(p: Program) {
    forall a, b :: a in p.bindings && b in p.bindings && ResultBinding(p, a) && EffectOf(p, a) == EffectOf(p, b) ==>
      a == b
  }

  /** A binding the walk entered was reached at the path it entered it by. */
  lemma PassedOverTwice(p: Program, start: Goal, entered: map<Id, Path>, roots: seq<Root>, goal: Goal)
    requires Found(p, start, entered, roots) && OnePath(p, start) && Reached(p, start, goal)
    ensures !PassedOver(p, entered, goal)
  {
    hide Reached, EffectOf;
    if goal.Bound? && goal.binding in entered {
      assert SameResult(p, goal, Bound(goal.binding, entered[goal.binding])) <==> ResultBinding(p, goal.binding);
    }
  }

  /** Nothing is lost to visiting a binding once as long as each result binding is reached at one path. */
  lemma OnePathComplete(p: Program, start: Goal, entered: map<Id, Path>, roots: seq<Root>)
    requires Found(p, start, entered, roots) && OnePath(p, start)
    ensures Complete(p, start, roots)
  {
    hide OnePath, PassedOver, Own;
    forall g | Reached(p, start, g) && Own(p, g).Some? ensures Own(p, g).value in roots {
      PassedOverTwice(p, start, entered, roots, g);
    }
  }

  lemma OwnResult(p: Program, goal: Goal, effect: Id, path: Path)
    requires Own(p, goal) == Some(ResultRoot(effect, None, path))
    ensures goal.Bound? && goal.path == path && goal.binding in p.bindings && EffectOf(p, goal.binding) == Some(effect)
  {
  }

  /** And where no two result bindings answer for one effect, exactly then. */
  lemma CompleteOnlyIfOnePath(p: Program, start: Goal, entered: map<Id, Path>, roots: seq<Root>)
    requires Found(p, start, entered, roots) && ResultsApart(p) && Complete(p, start, roots)
    ensures OnePath(p, start)
  {
    hide EffectOf, Nexts;
    forall g, h | Reached(p, start, g) && Reached(p, start, h) && SameResult(p, g, h) ensures g == h {
      EnteredThere(p, start, entered, roots, g);
      EnteredThere(p, start, entered, roots, h);
    }
  }

  lemma EnteredThere(p: Program, start: Goal, entered: map<Id, Path>, roots: seq<Root>, goal: Goal)
    requires Found(p, start, entered, roots) && ResultsApart(p) && Complete(p, start, roots)
    requires Reached(p, start, goal) && goal.Bound? && ResultBinding(p, goal.binding)
    ensures goal.binding in entered && entered[goal.binding] == goal.path
  {
    var root := ResultRoot(EffectOf(p, goal.binding).value, None, goal.path);
    assert goal.binding in p.bindings && Own(p, goal) == Some(root);
    hide Own, EffectOf;
    assert Earned(p, start, entered, root);
    var g :| Reached(p, start, g) && Own(p, g) == Some(root) &&
      (g.Bound? ==> g.binding in entered && entered[g.binding] == g.path);
    OwnResult(p, g, root.effect, goal.path);
  }

  ghost predicate OutputReferences(p: Program, values: Derivation) {
    values.Deterministic? ==>
      forall i :: 0 <= i < |values.from| && values.from[i].source.TransactionOutput? ==>
                    values.from[i].source.binding in p.bindings && p.bindings[values.from[i].source.binding].Output?
  }

  /** Every transaction-output reference of the program names a transaction output. */
  ghost predicate NamesOutputs(p: Program) {
    && (forall b :: b in p.bindings && !p.bindings[b].EffectResult? && !p.bindings[b].IntentResult? ==>
         OutputReferences(p, p.bindings[b].values))
    && (forall e :: e in p.effects ==> OutputReferences(p, p.effects[e].values))
  }

  ghost predicate NoResultBehind(p: Program, goal: Goal) {
    && (goal.Ref? && goal.reference.source.TransactionOutput? ==> !ResultBinding(p, goal.reference.source.binding))
  }

  lemma NextsNameOutputs(p: Program, goal: Goal, next: Goal)
    requires NamesOutputs(p) && NoResultBehind(p, goal) && next in Nexts(p, goal)
    ensures NoResultBehind(p, next) && (next.Bound? ==> !ResultBinding(p, next.binding))
  {
  }

  lemma {:induction false} ReachedNamesOutputs(p: Program, binding: Id, goal: Goal, n: nat)
    requires NamesOutputs(p) && ReachedIn(p, Bound(binding, []), goal, n)
    ensures NoResultBehind(p, goal) && (goal.Bound? && ResultBinding(p, goal.binding) ==> goal == Bound(binding, []))
    decreases n
  {
    hide NamesOutputs, Nexts, NoResultBehind, ResultBinding;
    if n == 0 {
      StartNames(p, binding);
    } else {
      var g :| ReachedIn(p, Bound(binding, []), g, n - 1) && goal in Nexts(p, g);
      ReachedNamesOutputs(p, binding, g, n - 1);
      NextsNameOutputs(p, g, goal);
    }
  }

  lemma StartNames(p: Program, binding: Id)
    ensures NoResultBehind(p, Bound(binding, []))
  {
  }

  /** In a program whose transaction-output references name outputs, the walk loses nothing. */
  lemma OutputsComplete(p: Program, binding: Id, entered: map<Id, Path>, roots: seq<Root>)
    requires NamesOutputs(p) && Found(p, Bound(binding, []), entered, roots)
    ensures Complete(p, Bound(binding, []), roots)
  {
    hide NamesOutputs, ReachedIn, Found;
    var start := Bound(binding, []);
    forall g, h | Reached(p, start, g) && Reached(p, start, h) && SameResult(p, g, h) ensures g == h {
      var n: nat :| ReachedIn(p, start, g, n);
      var m: nat :| ReachedIn(p, start, h, m);
      ReachedNamesOutputs(p, binding, g, n);
      ReachedNamesOutputs(p, binding, h, m);
    }
    OnePathComplete(p, start, entered, roots);
  }

  /** An output that reads two paths of one effect result: nothing but the DSL's own rule forbids it. */
  function TwoPaths(): Program {
    var values := Deterministic([ValueRef(TransactionOutput(1), ["a"]), ValueRef(TransactionOutput(1), ["b"])]);
    Program(map[0 := Output(values, Transaction(0, [])), 1 := EffectResult(7)], map[])
  }

  lemma TwoPathsReached()
    ensures Reached(TwoPaths(), Bound(0, []), Bound(1, ["a"])) && Reached(TwoPaths(), Bound(0, []), Bound(1, ["b"]))
  {
    var p, start := TwoPaths(), Bound(0, []);
    assert ReachedIn(p, start, start, 0);
    var a, b := ValueRef(TransactionOutput(1), ["a"]), ValueRef(TransactionOutput(1), ["b"]);
    var parts := Nexts(p, start);
    assert parts[0] == Ref(a, Some(Transaction(0, []))) && parts[1] == Ref(b, Some(Transaction(0, [])));
    ReachedParts(p, start, start, parts);
    ReachedNext(p, start, parts[0], Bound(1, ["a"]));
    ReachedNext(p, start, parts[1], Bound(1, ["b"]));
  }

  lemma TwoPathsResults()
    ensures ResultsApart(TwoPaths()) && ResultBinding(TwoPaths(), 1)
  {
    var p := TwoPaths();
    assert EffectOf(p, 0) == None && EffectOf(p, 1) == Some(7);
  }

  /** Its walk loses one of the two, whichever it enters by. */
  lemma LosesAPath(entered: map<Id, Path>, roots: seq<Root>)
    requires Found(TwoPaths(), Bound(0, []), entered, roots)
    ensures !Complete(TwoPaths(), Bound(0, []), roots)
  {
    TwoPathsReached();
    TwoPathsResults();
    hide Found, Complete, Reached, ResultsApart, ResultBinding, TwoPaths;
    assert Bound(1, ["a"]) != Bound(1, ["b"]) by { assert ["a"][0] != ["b"][0]; }
    assert SameResult(TwoPaths(), Bound(1, ["a"]), Bound(1, ["b"]));
    if Complete(TwoPaths(), Bound(0, []), roots) { CompleteOnlyIfOnePath(TwoPaths(), Bound(0, []), entered, roots); }
  }
}
