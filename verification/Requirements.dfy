/**
 Requirement identities: a declared requirement is known by its family, its fingerprint and its
 occurrence among declarations alike in both, and found again by those three.

 The fingerprint is any function of a declaration: nothing here depends on its telling declarations apart.
 */
module Requirements {
  import opened Common
  import opened Program

  datatype Family = Serializability | Ordering | Idempotency | Recoverability | ResultReplay

  type Fingerprint = nat

  /** What of an operation draft declares requirements: its program and the operation's own lists. */
  datatype Draft = Draft(program: Option<Block>, idempotency: seq<Content>, recoverability: seq<Content>)

  datatype Declared = Declared(family: Family, content: Content)

  datatype Entry = Entry(family: Family, fingerprint: Fingerprint, occurrence: nat)

  function Tagged(family: Family, list: seq<Content>): (declared: seq<Declared>)
    ensures |declared| == |list|
    ensures forall i :: 0 <= i < |list| ==> declared[i] == Declared(family, list[i])
  {
    seq(|list|, i requires 0 <= i < |list| => Declared(family, list[i]))
  }

  function InProgram(program: seq<Transaction>): seq<Declared> {
    if program == [] then [] else
    var last := program[|program| - 1];
    InProgram(program[..|program| - 1]) + Tagged(Serializability, last.serializability) +
      Tagged(Ordering, last.ordering)
  }

  function Inline(draft: Draft): seq<Transaction> {
    if draft.program.Some? then Transactions(draft.program.value) else []
  }

  /** Every requirement of a draft, in declaration order. */
  function AllOf(draft: Draft): seq<Declared> {
    InProgram(Inline(draft)) + Tagged(Idempotency, draft.idempotency) + Tagged(Recoverability, draft.recoverability)
  }

  /** The declarations of one family, in order. */
  function Of(declared: seq<Declared>, family: Family): seq<Content> {
    if declared == [] then [] else
    var last := declared[|declared| - 1];
    Of(declared[..|declared| - 1], family) + if last.family == family then [last.content] else []
  }

  function Count(hash: Content -> Fingerprint, list: seq<Content>, fingerprint: Fingerprint): nat {
    if list == [] then 0 else
    Count(hash, list[..|list| - 1], fingerprint) + if hash(list[|list| - 1]) == fingerprint then 1 else 0
  }

  /** The entry a declaration has after the ones before it. */
  function EntryAfter(hash: Content -> Fingerprint, before: seq<Declared>, x: Declared): Entry {
    Entry(x.family, hash(x.content), Count(hash, Of(before, x.family), hash(x.content)))
  }

  ghost predicate Assigned(hash: Content -> Fingerprint, declared: seq<Declared>, entries: seq<Entry>) {
    |entries| == |declared| &&
    forall i {:trigger entries[i]} :: 0 <= i < |declared| ==> entries[i] == EntryAfter(hash, declared[..i], declared[i])
  }

  function SeenOf(seen: map<(Family, Fingerprint), nat>, family: Family, fingerprint: Fingerprint): nat {
    if (family, fingerprint) in seen then seen[(family, fingerprint)] else 0
  }

  ghost predicate Tallied(hash: Content -> Fingerprint, declared: seq<Declared>,
      seen: map<(Family, Fingerprint), nat>) {
    forall f, p {:trigger SeenOf(seen, f, p)} :: SeenOf(seen, f, p) == Count(hash, Of(declared, f), p)
  }

  lemma OfPush(hash: Content -> Fingerprint, declared: seq<Declared>, x: Declared, family: Family,
      fingerprint: Fingerprint)
    ensures Of(declared + [x], family) == Of(declared, family) + if x.family == family then [x.content] else []
    ensures Count(hash, Of(declared + [x], family), fingerprint) ==
            Count(hash, Of(declared, family), fingerprint) + if x.family == family && hash(x.content) == fingerprint
            then 1 else 0
  {
    assert (declared + [x])[..|declared|] == declared;
    assert Of(declared, family) + [] == Of(declared, family);
    CountPush(hash, Of(declared, family), x.content, fingerprint);
  }

  lemma CountPush(hash: Content -> Fingerprint, list: seq<Content>, x: Content, fingerprint: Fingerprint)
    ensures Count(hash, list + [x], fingerprint) == Count(hash, list, fingerprint) + if hash(x) == fingerprint then 1
            else 0
  {
    assert (list + [x])[..|list|] == list;
  }

  lemma AssignedPush(hash: Content -> Fingerprint, declared: seq<Declared>, entries: seq<Entry>, x: Declared)
    requires Assigned(hash, declared, entries)
    ensures Assigned(hash, declared + [x], entries + [EntryAfter(hash, declared, x)])
  {
    hide EntryAfter;
    var all := declared + [x];
    forall i | 0 <= i < |all|
      ensures (entries + [EntryAfter(hash, declared, x)])[i] == EntryAfter(hash, all[..i], all[i]) {
      assert all[..i] == declared[..i];
    }
  }

  lemma TalliedPush(hash: Content -> Fingerprint, declared: seq<Declared>, seen: map<(Family, Fingerprint), nat>,
      x: Declared)
    requires Tallied(hash, declared, seen)
    ensures var p := hash(x.content);
            Tallied(hash, declared + [x], seen[(x.family, p) := SeenOf(seen, x.family, p) + 1])
  {
    hide Of, Count;
    var after := seen[(x.family, hash(x.content)) := SeenOf(seen, x.family, hash(x.content)) + 1];
    forall f, q ensures SeenOf(after, f, q) == Count(hash, Of(declared + [x], f), q) {
      OfPush(hash, declared, x, f, q);
      assert SeenOf(seen, f, q) == Count(hash, Of(declared, f), q);
    }
  }

  /** Gives one declaration its entry and counts it. */
  method Push(hash: Content -> Fingerprint, x: Declared, seen0: map<(Family, Fingerprint), nat>, entries0: seq<Entry>,
              ghost before: seq<Declared>)
    returns (seen: map<(Family, Fingerprint), nat>, entries: seq<Entry>)
    requires Assigned(hash, before, entries0) && Tallied(hash, before, seen0)
    ensures Assigned(hash, before + [x], entries) && Tallied(hash, before + [x], seen)
  {
    hide Of, Count, Assigned;
    var fingerprint := hash(x.content);
    var occurrence := if (x.family, fingerprint) in seen0 then seen0[(x.family, fingerprint)] else 0;
    assert occurrence == SeenOf(seen0, x.family, fingerprint);
    AssignedPush(hash, before, entries0, x);
    TalliedPush(hash, before, seen0, x);
    entries := entries0 + [Entry(x.family, fingerprint, occurrence)];
    seen := seen0[(x.family, fingerprint) := occurrence + 1];
  }

  /** Gives every declaration of a list its entry, counting on. */
  method PushAll(hash: Content -> Fingerprint, family: Family, list: seq<Content>,
      seen0: map<(Family, Fingerprint), nat>, entries0: seq<Entry>,
                 ghost before: seq<Declared>)
    returns (seen: map<(Family, Fingerprint), nat>, entries: seq<Entry>)
    requires Assigned(hash, before, entries0) && Tallied(hash, before, seen0)
    ensures Assigned(hash, before + Tagged(family, list), entries) && Tallied(hash, before + Tagged(family, list), seen)
  {
    hide Assigned, Tallied;
    seen, entries := seen0, entries0;
    ghost var all := before;
    for i := 0 to |list|
      invariant all == before + Tagged(family, list)[..i]
      invariant Assigned(hash, all, entries) && Tallied(hash, all, seen)
    {
      seen, entries := Push(hash, Declared(family, list[i]), seen, entries, all);
      all := all + [Declared(family, list[i])];
    }
    assert Tagged(family, list)[..|list|] == Tagged(family, list);
  }

  /** Every declared requirement with its family, fingerprint and occurrence, in declaration order. */
  method RequirementEntries(hash: Content -> Fingerprint, draft: Draft) returns (entries: seq<Entry>)
    ensures Assigned(hash, AllOf(draft), entries)
  {
    var seen: map<(Family, Fingerprint), nat> := map[];
    entries := [];
    hide Assigned, Tallied, Tagged;
    assert Assigned(hash, [], entries) && Tallied(hash, [], seen) by { NothingYet(hash); }
    ghost var all := [];
    if draft.program.Some? {
      var program := Transactions(draft.program.value);
      for t := 0 to |program|
        invariant all == InProgram(program[..t])
        invariant Assigned(hash, all, entries) && Tallied(hash, all, seen)
      {
        assert program[..t + 1][..t] == program[..t];
        seen, entries := PushAll(hash, Serializability, program[t].serializability, seen, entries, all);
        all := all + Tagged(Serializability, program[t].serializability);
        seen, entries := PushAll(hash, Ordering, program[t].ordering, seen, entries, all);
        all := all + Tagged(Ordering, program[t].ordering);
      }
      assert program[..|program|] == program;
    }
    seen, entries := PushAll(hash, Idempotency, draft.idempotency, seen, entries, all);
    seen, entries :=
      PushAll(hash, Recoverability, draft.recoverability, seen, entries, all + Tagged(Idempotency, draft.idempotency));
  }

  lemma NothingYet(hash: Content -> Fingerprint)
    ensures Assigned(hash, [], []) && Tallied(hash, [], map[])
  {
  }

  function Gathered(program: seq<Transaction>, family: Family): seq<Content> {
    if program == [] then [] else
    var last := program[|program| - 1];
    Gathered(program[..|program| - 1], family) + if family == Serializability then last.serializability
      else last.ordering
  }

  /** The list a family is looked up in. Result replay has none of its own and reads idempotency's. */
  function ListOf(draft: Draft, family: Family): seq<Content> {
    match family
    case Serializability => Gathered(Inline(draft), family)
    case Ordering => Gathered(Inline(draft), family)
    case Idempotency => draft.idempotency
    case ResultReplay => draft.idempotency
    case Recoverability => draft.recoverability
  }

  /** The place of the first entry with the fingerprint that has `occurrence` such entries before it. */
  method Pick(hash: Content -> Fingerprint, list: seq<Content>, fingerprint: Fingerprint, occurrence: nat)
    returns (at: Option<nat>)
    ensures at.Some? ==> IsPick(hash, list, fingerprint, occurrence, at.value)
    ensures at.None? ==> Count(hash, list, fingerprint) <= occurrence
  {
    var seen := 0;
    for i := 0 to |list|
      invariant seen == Count(hash, list[..i], fingerprint) <= occurrence
    {
      assert list[..i + 1][..i] == list[..i];
      if hash(list[i]) == fingerprint {
        if seen == occurrence { return Some(i); }
        seen := seen + 1;
      }
    }
    assert list[..|list|] == list;
    at := None;
  }

  ghost predicate IsPick(hash: Content -> Fingerprint, list: seq<Content>, fingerprint: Fingerprint, occurrence: nat,
      at: nat) {
    at < |list| && hash(list[at]) == fingerprint && Count(hash, list[..at], fingerprint) == occurrence
  }

  /** What a look-up answers: the one place with the identity, or that too few declarations are alike. */
  ghost predicate Finds(hash: Content -> Fingerprint, draft: Draft, entry: Entry, at: Option<nat>) {
    && (at.Some? ==> IsPick(hash, ListOf(draft, entry.family), entry.fingerprint, entry.occurrence, at.value))
    && (at.None? ==> Count(hash, ListOf(draft, entry.family), entry.fingerprint) <= entry.occurrence)
  }

  /** Looks a requirement up by its identity. */
  method RequirementContent(hash: Content -> Fingerprint, draft: Draft, entry: Entry) returns (at: Option<nat>)
    ensures Finds(hash, draft, entry, at)
  {
    at := Pick(hash, ListOf(draft, entry.family), entry.fingerprint, entry.occurrence);
  }

  lemma {:induction false} CountGrows(hash: Content -> Fingerprint, list: seq<Content>, fingerprint: Fingerprint,
      at: nat)
    requires at < |list| && hash(list[at]) == fingerprint
    ensures Count(hash, list[..at], fingerprint) < Count(hash, list, fingerprint)
  {
    var n := |list| - 1;
    if at == n {
    } else {
      CountGrows(hash, list[..n], fingerprint, at);
      assert list[..n][..at] == list[..at];
    }
  }

  /** At most one place has an identity. */
  lemma PickOnce(hash: Content -> Fingerprint, list: seq<Content>, fingerprint: Fingerprint, occurrence: nat, a: nat,
      b: nat)
    requires IsPick(hash, list, fingerprint, occurrence, a) && IsPick(hash, list, fingerprint, occurrence, b)
    ensures a == b
  {
    if a < b { PickBefore(hash, list, fingerprint, occurrence, a, b); }
    if b < a { PickBefore(hash, list, fingerprint, occurrence, b, a); }
  }

  lemma PickBefore(hash: Content -> Fingerprint, list: seq<Content>, fingerprint: Fingerprint, occurrence: nat, a: nat,
      b: nat)
    requires IsPick(hash, list, fingerprint, occurrence, a) && a < b <= |list|
    ensures occurrence < Count(hash, list[..b], fingerprint)
  {
    CountGrows(hash, list[..b], fingerprint, a);
    assert list[..b][..a] == list[..a];
  }

  /** And one has it as soon as there are enough declarations alike. */
  lemma {:induction false} PickExists(hash: Content -> Fingerprint, list: seq<Content>, fingerprint: Fingerprint,
      occurrence: nat) returns (at: nat)
    requires occurrence < Count(hash, list, fingerprint)
    ensures IsPick(hash, list, fingerprint, occurrence, at)
  {
    var n := |list| - 1;
    if hash(list[n]) == fingerprint && Count(hash, list[..n], fingerprint) == occurrence {
      at := n;
    } else {
      at := PickExists(hash, list[..n], fingerprint, occurrence);
      assert list[..n][..at] == list[..at];
    }
  }

  lemma {:induction false} OfConcat(a: seq<Declared>, b: seq<Declared>, family: Family)
    ensures Of(a + b, family) == Of(a, family) + Of(b, family)
  {
    if b == [] {
      assert a + b == a;
    } else {
      assert (a + b)[..|a + b| - 1] == a + b[..|b| - 1];
      OfConcat(a, b[..|b| - 1], family);
    }
  }

  lemma {:induction false} OfTagged(tag: Family, list: seq<Content>, family: Family)
    ensures Of(Tagged(tag, list), family) == if tag == family then list else []
  {
    if list != [] {
      var n := |list| - 1;
      assert Tagged(tag, list)[..n] == Tagged(tag, list[..n]);
      OfTagged(tag, list[..n], family);
      assert list == list[..n] + [list[n]];
    }
  }

  lemma {:induction false} OfProgram(program: seq<Transaction>, family: Family)
    ensures Of(InProgram(program), family) ==
            if family == Serializability || family == Ordering then Gathered(program, family) else []
  {
    if program != [] {
      var rest, last := program[..|program| - 1], program[|program| - 1];
      OfProgram(rest, family);
      OfConcat(InProgram(rest) + Tagged(Serializability, last.serializability), Tagged(Ordering, last.ordering),
        family);
      OfConcat(InProgram(rest), Tagged(Serializability, last.serializability), family);
      OfTagged(Serializability, last.serializability, family);
      OfTagged(Ordering, last.ordering, family);
    }
  }

  /** The list a family is looked up in holds exactly its declarations, in declaration order. */
  lemma ListIsFamily(draft: Draft, family: Family)
    requires family != ResultReplay
    ensures ListOf(draft, family) == Of(AllOf(draft), family)
  {
    hide Tagged, Of, InProgram, Gathered;
    var inside := InProgram(Inline(draft));
    OfProgram(Inline(draft), family);
    OfConcat(inside + Tagged(Idempotency, draft.idempotency), Tagged(Recoverability, draft.recoverability), family);
    OfConcat(inside, Tagged(Idempotency, draft.idempotency), family);
    OfTagged(Idempotency, draft.idempotency, family);
    OfTagged(Recoverability, draft.recoverability, family);
  }

  /** The place of declaration `i` among its own family's. */
  function PlaceOf(declared: seq<Declared>, i: nat): nat
    requires i < |declared|
  {
    |Of(declared[..i], declared[i].family)|
  }

  /** A declaration's place in its family's list is where that list holds it, after what came before it. */
  lemma {:induction false} PlaceHolds(declared: seq<Declared>, i: nat)
    requires i < |declared|
    ensures var list := Of(declared, declared[i].family);
            PlaceOf(declared, i) < |list| && list[PlaceOf(declared, i)] == declared[i].content &&
            list[..PlaceOf(declared, i)] == Of(declared[..i], declared[i].family)
  {
    var n := |declared| - 1;
    if i < n {
      PlaceHolds(declared[..n], i);
      assert declared[..n][..i] == declared[..i];
    }
  }

  /** Every place of a family's list is some declaration's. */
  lemma {:induction false} PlaceOfSome(declared: seq<Declared>, family: Family, place: nat) returns (i: nat)
    requires place < |Of(declared, family)|
    ensures i < |declared| && declared[i].family == family && PlaceOf(declared, i) == place
  {
    var n := |declared| - 1;
    if place < |Of(declared[..n], family)| {
      i := PlaceOfSome(declared[..n], family, place);
      assert declared[..n][..i] == declared[..i];
    } else {
      i := n;
    }
  }

  /**
   The round trip: looking up the identity a declaration was assigned finds that declaration's own
   place, whichever transaction declares it and whatever fingerprints collide.
   */
  lemma RoundTrip(hash: Content -> Fingerprint, draft: Draft, entries: seq<Entry>, i: nat, at: Option<nat>)
    requires Assigned(hash, AllOf(draft), entries) && i < |entries|
    requires Finds(hash, draft, entries[i], at)
    ensures at == Some(PlaceOf(AllOf(draft), i))
    ensures ListOf(draft, entries[i].family)[at.value] == AllOf(draft)[i].content
  {
    NoReplay(draft, i);
    var declared := AllOf(draft);
    ListIsFamily(draft, entries[i].family);
    PlaceHolds(declared, i);
    hide AllOf, ListOf, Of;
    var list, place := Of(declared, declared[i].family), PlaceOf(declared, i);
    assert IsPick(hash, list, entries[i].fingerprint, entries[i].occurrence, place);
    CountGrows(hash, list, entries[i].fingerprint, place);
    PickOnce(hash, list, entries[i].fingerprint, entries[i].occurrence, place, at.value);
  }

  lemma {:induction false} NoReplayInside(program: seq<Transaction>)
    ensures forall i :: 0 <= i < |InProgram(program)| ==> InProgram(program)[i].family != ResultReplay
  {
    if program != [] { NoReplayInside(program[..|program| - 1]); }
  }

  lemma NoReplay(draft: Draft, i: nat)
    requires i < |AllOf(draft)|
    ensures AllOf(draft)[i].family != ResultReplay
  {
    NoReplayInside(Inline(draft));
  }

  /** No two declarations share an identity. */
  lemma IdentitiesUnique(hash: Content -> Fingerprint, draft: Draft, entries: seq<Entry>, i: nat, j: nat)
    requires Assigned(hash, AllOf(draft), entries) && i < j < |entries|
    ensures entries[i] != entries[j]
  {
    var declared := AllOf(draft);
    if declared[i].family == declared[j].family && hash(declared[i].content) == hash(declared[j].content) {
      PlaceHolds(declared[..j], i);
      assert declared[..j][..i] == declared[..i];
      var list := Of(declared[..j], declared[i].family);
      CountGrows(hash, list, entries[i].fingerprint, PlaceOf(declared[..j], i));
    }
  }

  /** The identity whose assignment a look-up answers for: result replay's answers for idempotency's. */
  function AnsweredFor(entry: Entry): Entry {
    if entry.family == ResultReplay then entry.(family := Idempotency) else entry
  }

  /**
   A look-up finds an identity exactly when the one it answers for was assigned, so it finds just what
   was assigned except where a result-replay identity is looked up that idempotency has assigned.
   */
  lemma FoundIffAssigned(
    hash: Content -> Fingerprint, draft: Draft, entries: seq<Entry>, entry: Entry, at: Option<nat>)
    requires Assigned(hash, AllOf(draft), entries) && Finds(hash, draft, entry, at)
    ensures at.Some? <==> AnsweredFor(entry) in entries
    ensures (at.Some? <==> entry in entries) <==>
              entry.family != ResultReplay || Entry(Idempotency, entry.fingerprint, entry.occurrence) !in entries
  {
    forall i | 0 <= i < |entries| ensures entries[i].family != ResultReplay { NoReplay(draft, i); }
    AssignedIffCounted(hash, draft, entries, AnsweredFor(entry));
    if at.Some? { CountGrows(hash, ListOf(draft, entry.family), entry.fingerprint, at.value); }
  }

  lemma AssignedIffCounted(hash: Content -> Fingerprint, draft: Draft, entries: seq<Entry>, entry: Entry)
    requires Assigned(hash, AllOf(draft), entries) && entry.family != ResultReplay
    ensures entry in entries <==> entry.occurrence < Count(hash, ListOf(draft, entry.family), entry.fingerprint)
  {
    var declared := AllOf(draft);
    ListIsFamily(draft, entry.family);
    var list := Of(declared, entry.family);
    hide AllOf, ListOf, Of;
    if entry in entries {
      var i :| 0 <= i < |entries| && entries[i] == entry;
      PlaceHolds(declared, i);
      CountGrows(hash, list, entry.fingerprint, PlaceOf(declared, i));
    }
    if entry.occurrence < Count(hash, list, entry.fingerprint) {
      var place := PickExists(hash, list, entry.fingerprint, entry.occurrence);
      var i := PlaceOfSome(declared, entry.family, place);
      PlaceHolds(declared, i);
      assert entries[i] == entry;
    }
  }

  /** One idempotency requirement is enough for a result-replay identity that nothing has to be found. */
  lemma ReplayFound(hash: Content -> Fingerprint, content: Content)
    ensures var draft := Draft(None, [content], []);
            var entry := Entry(ResultReplay, hash(content), 0);
            Assigned(hash, AllOf(draft), [Entry(Idempotency, hash(content), 0)]) &&
            Finds(hash, draft, entry, Some(0)) && !Finds(hash, draft, entry, None)
  {
    var draft := Draft(None, [content], []);
    assert AllOf(draft) == [Declared(Idempotency, content)];
    assert AllOf(draft)[..0] == [] && [content][..0] == [];
    CountGrows(hash, [content], hash(content), 0);
  }
}
