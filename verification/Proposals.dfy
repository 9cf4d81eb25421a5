/**
 Requirement proposals: recorded on the workspace with their provenance, adopted into an operation's
 declared requirements as the run policy says, and mapped to the prompt obligation they discharge.
 */
module Proposals {
  import opened Common
  import opened Program
  import R = Requirements

  datatype OperationRequirements = OperationRequirements(idempotency: seq<Content>, recoverability: seq<Content>)

  datatype Stage = Planned | ProgramProposed | RequirementsProposed | ReadyForAssembly

  /** An operation under authorship; its interface is opaque. */
  datatype Draft = Draft(interface: Content, program: Option<Block>, requirements: OperationRequirements, stage: Stage)

  /** A proposed requirement, in its family; those of a transaction name it. */
  datatype Proposed =
    | OfSerializability(transaction: Id, content: Content)
    | OfOrdering(transaction: Id, content: Content)
    | OfIdempotency(content: Content)
    | OfRecoverability(content: Content)

  datatype Origin = ExplicitPrompt(obligation: Id) | StronglyImplied | Recommended

  datatype Submission = Submission(requirement: Proposed, origin: Origin)

  datatype Policy = Policy(strictRequirements: bool, adoptRecommended: bool)

  /** Names one declared requirement by its place in its list. */
  datatype Ref = Ref(operation: Id, family: R.Family, transaction: Option<Id>, index: nat)

  datatype Status = Duplicate(reference: Ref) | Adopted(reference: Ref) | Advisory

  datatype Proposal = Proposal(operation: Id, requirement: Proposed, origin: Origin, status: Status)

  datatype ObligationStatus = Unmapped | Mapped(requirements: seq<Ref>) | Unsupported | Waived

  datatype Obligation = Obligation(text: Content, status: ObligationStatus)

  /** The tables of shared symbols, each a flat map by id. */
  datatype Table =
    | Services | Schemas | DataModels | Topics | StateMachines
    | TopicRuntimes | ExecutionPools | Routers | StorageLayouts

  /** The symbols a patch can write, and the rest, which are derived from those. */
  datatype Symbol =
    | Shared(table: Table, id: Id)
    | Operation(id: Id)
    | OperationInterface(id: Id)
    | OperationProgram(id: Id)
    | OperationRequirementsOf(id: Id)
    | SubscriptionRuntime(operation: Id, input: Id)
    | OutboxRuntime(operation: Id, input: Id)
    | PromptObligation(id: Id)
    | Derived(id: Id)

  datatype Diagnostic = Undeclared(symbol: Symbol) | NoTransaction(symbol: Symbol, transaction: Id)
      | NotTopLevel(symbol: Symbol) | Failed(check: nat)

  function FamilyOf(proposed: Proposed): R.Family {
    match proposed
    case OfSerializability(_, _) => R.Serializability
    case OfOrdering(_, _) => R.Ordering
    case OfIdempotency(_) => R.Idempotency
    case OfRecoverability(_) => R.Recoverability
  }

  function TransactionOf(proposed: Proposed): Option<Id> {
    if proposed.OfSerializability? || proposed.OfOrdering? then Some(proposed.transaction) else None
  }

  /** The list a family declares on a draft, or on one of its transactions; none when that is not there. */
  function ListIn(draft: Draft, family: R.Family, transaction: Option<Id>): Option<seq<Content>> {
    match family
    case Serializability =>
      if transaction.None? || draft.program.None? || Find(draft.program.value, transaction.value).None? then None
      else Some(Find(draft.program.value, transaction.value).value.serializability)
    case Ordering =>
      if transaction.None? || draft.program.None? || Find(draft.program.value, transaction.value).None? then None
      else Some(Find(draft.program.value, transaction.value).value.ordering)
    case Idempotency => if transaction.None? then Some(draft.requirements.idempotency) else None
    case Recoverability => if transaction.None? then Some(draft.requirements.recoverability) else None
    case ResultReplay => None
  }

  /** The content a reference names, in the drafts as they are. */
  function Resolve(operations: map<Id, Draft>, reference: Ref): Option<Content> {
    if reference.operation !in operations then None else
    var list := ListIn(operations[reference.operation], reference.family, reference.transaction);
    if list.Some? && reference.index < |list.value| then Some(list.value[reference.index]) else None
  }

  predicate HasRequirements(draft: Draft) {
    (draft.program.Some? &&
     exists t :: t in Transactions(draft.program.value) && (t.serializability != [] || t.ordering != [])) ||
    draft.requirements.idempotency != [] || draft.requirements.recoverability != []
  }

  /** The stage a draft's contents give it; a sign-off is kept. */
  function Staged(draft: Draft): Draft {
    if draft.stage == ReadyForAssembly then draft
    else draft.(stage := if draft.program.None? then Planned else if HasRequirements(draft) then RequirementsProposed
         else ProgramProposed)
  }

  predicate Adopts(policy: Policy, origin: Origin) {
    match origin
    case ExplicitPrompt(_) => true
    case StronglyImplied => policy.strictRequirements
    case Recommended => policy.adoptRecommended
  }

  /** The first place of a declaration in a list, or past its end. */
  function Position(list: seq<Content>, content: Content): (at: nat)
    ensures at <= |list|
    ensures at < |list| ==> list[at] == content
    ensures forall i :: 0 <= i < at ==> list[i] != content
  {
    if list == [] || list[0] == content then 0 else 1 + Position(list[1..], content)
  }

  /** The draft with a requirement put last in its list. */
  function Landed(draft: Draft, proposed: Proposed): Draft
    requires ListIn(draft, FamilyOf(proposed), TransactionOf(proposed)).Some?
  {
    match proposed
    case OfSerializability(transaction, content) =>
      var declared := Find(draft.program.value, transaction).value;
      var more := declared.(serializability := declared.serializability + [content]);
      draft.(program := Some(Update(draft.program.value, transaction, more)))
    case OfOrdering(transaction, content) =>
      var declared := Find(draft.program.value, transaction).value;
      var more := declared.(ordering := declared.ordering + [content]);
      draft.(program := Some(Update(draft.program.value, transaction, more)))
    case OfIdempotency(content) =>
      draft.(requirements := draft.requirements.(idempotency := draft.requirements.idempotency + [content]))
    case OfRecoverability(content) =>
      draft.(requirements := draft.requirements.(recoverability := draft.requirements.recoverability + [content]))
  }

  /** An obligation's status once a reference discharges it: each reference recorded once, verdicts kept. */
  function Mapping(status: ObligationStatus, reference: Ref): ObligationStatus {
    match status
    case Unmapped => Mapped([reference])
    case Mapped(requirements) => if reference in requirements then status else Mapped(requirements + [reference])
    case _ => status
  }

  ghost predicate Once<T(!new)>(list: seq<T>) {
    forall i, j :: 0 <= i < j < |list| ==> list[i] != list[j]
  }

  /** Mapping keeps what was recorded, in order, and records nothing twice. */
  lemma MappingKeeps(status: ObligationStatus, reference: Ref)
    ensures status.Mapped? ==>
              Mapping(status, reference).Mapped? && status.requirements <= Mapping(status, reference).requirements
    ensures status.Mapped? && Once(status.requirements) ==> Once(Mapping(status, reference).requirements)
    ensures status.Unmapped? || status.Mapped? ==> reference in Mapping(status, reference).requirements
  {
    if status.Unmapped? { assert reference in [reference]; }
  }

  /** A list's growth: the same entries first. */
  ghost predicate Extends(before: Draft, after: Draft) {
    forall f, t {:trigger ListIn(after, f, t)} {:trigger ListIn(before, f, t)} ::
      (ListIn(before, f, t).Some? <==> ListIn(after, f, t).Some?) &&
      (ListIn(before, f, t).Some? ==> ListIn(before, f, t).value <= ListIn(after, f, t).value)
  }

  lemma FindAfter(block: Block, id: Id, transaction: Transaction, other: Id)
    requires Find(block, id).Some? && transaction.id == id
    ensures Find(Update(block, id, transaction), other) == if other == id then Some(transaction) else Find(block, other)
  {
    UpdateIsPut(block, id, transaction);
    PutFinds(Transactions(block), id, transaction, other);
  }

  lemma PutFinds(list: seq<Transaction>, id: Id, transaction: Transaction, other: Id)
    requires Has(list, id) && transaction.id == id
    ensures FirstAt(Put(list, id, transaction), other) == FirstAt(list, other)
    ensures Has(list, other) ==>
              Put(list, id, transaction)[FirstAt(list, other)] ==
              if other == id then transaction else list[FirstAt(list, other)]
  {
    var after := Put(list, id, transaction);
    assert forall i :: 0 <= i < |list| ==> after[i].id == list[i].id;
    SameIds(list, after, other);
  }

  lemma {:induction false} SameIds(a: seq<Transaction>, b: seq<Transaction>, id: Id)
    requires |a| == |b| && forall i :: 0 <= i < |a| ==> a[i].id == b[i].id
    ensures FirstAt(a, id) == FirstAt(b, id)
  {
    if a != [] { SameIds(a[1..], b[1..], id); }
  }

  /** Landing a requirement adds it to its own list and to no other. */
  lemma LandedLists(draft: Draft, proposed: Proposed, f: R.Family, t: Option<Id>)
    requires ListIn(draft, FamilyOf(proposed), TransactionOf(proposed)).Some?
    ensures ListIn(Landed(draft, proposed), f, t) ==
            if f == FamilyOf(proposed) && t == TransactionOf(proposed)
            then Some(ListIn(draft, f, t).value + [proposed.content]) else ListIn(draft, f, t)
  {
    hide Find, Update;
    if proposed.OfSerializability? && t.Some? {
      var declared := Find(draft.program.value, proposed.transaction).value;
      FoundId(draft.program.value, proposed.transaction);
      FindAfter(draft.program.value, proposed.transaction,
        declared.(serializability := declared.serializability + [proposed.content]), t.value);
    } else if proposed.OfOrdering? && t.Some? {
      var declared := Find(draft.program.value, proposed.transaction).value;
      FoundId(draft.program.value, proposed.transaction);
      FindAfter(draft.program.value, proposed.transaction,
        declared.(ordering := declared.ordering + [proposed.content]), t.value);
    }
  }

  lemma FoundId(block: Block, id: Id)
    ensures Find(block, id).Some? ==> Find(block, id).value.id == id
  {
  }

  lemma LandedExtends(draft: Draft, proposed: Proposed)
    requires ListIn(draft, FamilyOf(proposed), TransactionOf(proposed)).Some?
    ensures Extends(draft, Landed(draft, proposed))
  {
    hide ListIn, Landed;
    forall f, t
      ensures (ListIn(draft, f, t).Some? <==> ListIn(Landed(draft, proposed), f, t).Some?) &&
              (ListIn(draft, f, t).Some? ==> ListIn(draft, f, t).value <= ListIn(Landed(draft, proposed), f, t).value)
    {
      LandedLists(draft, proposed, f, t);
    }
  }

  /** What a proposal comes to on a draft, and the draft it leaves; none without the transaction it names. */
  function Judged(draft: Draft, policy: Policy, operation: Id, submission: Submission): (Draft, Option<Status>) {
    var proposed := submission.requirement;
    var list := ListIn(draft, FamilyOf(proposed), TransactionOf(proposed));
    if list.None? then (draft, None) else
    var at := Position(list.value, proposed.content);
    if at < |list.value| then (draft, Some(Duplicate(Ref(operation, FamilyOf(proposed), TransactionOf(proposed), at))))
    else if Adopts(policy, submission.origin)
    then (Landed(draft, proposed),
         Some(Adopted(Ref(operation, FamilyOf(proposed), TransactionOf(proposed), |list.value|))))
    else (draft, Some(Advisory))
  }

  datatype Books = Books(draft: Draft, obligations: map<Id, Obligation>, proposals: seq<Proposal>,
      diagnostics: seq<Diagnostic>)

  function MapIn(obligations: map<Id, Obligation>, id: Id, reference: Ref): map<Id, Obligation> {
    if id !in obligations then obligations else
    obligations[id := obligations[id].(status := Mapping(obligations[id].status, reference))]
  }

  /** The books after one submission: a diagnostic, or one record of what it came to. */
  function Booked(books: Books, policy: Policy, operation: Id, submission: Submission): Books {
    if submission.origin.ExplicitPrompt? && submission.origin.obligation !in books.obligations then
      books.(diagnostics := books.diagnostics + [Undeclared(PromptObligation(submission.origin.obligation))])
    else
      var (draft, status) := Judged(books.draft, policy, operation, submission);
      if status.None? then
        var missing := NoTransaction(OperationRequirementsOf(operation), submission.requirement.transaction);
        books.(diagnostics := books.diagnostics + [missing])
      else
        Books(draft,
              if submission.origin.ExplicitPrompt? && !status.value.Advisory?
              then MapIn(books.obligations, submission.origin.obligation, status.value.reference)
                   else books.obligations,
              books.proposals + [Proposal(operation, submission.requirement, submission.origin, status.value)],
              books.diagnostics)
  }

  function BookedAll(books: Books, policy: Policy, operation: Id, submissions: seq<Submission>): Books
    decreases |submissions|
  {
    if submissions == [] then books
    else Booked(BookedAll(books, policy, operation, submissions[..|submissions| - 1]), policy, operation,
         submissions[|submissions| - 1])
  }

  /** Whether a record's reference names the first declaration of its content in its list. */
  ghost predicate Apt(draft: Draft, operation: Id, proposal: Proposal) {
    proposal.status.Advisory? ||
    var r := proposal.status.reference;
    var list := ListIn(draft, r.family, r.transaction);
    && r.operation == operation && r.family == FamilyOf(proposal.requirement) &&
         r.transaction == TransactionOf(proposal.requirement)
    && list.Some? && r.index < |list.value| && list.value[r.index] == proposal.requirement.content
    && proposal.requirement.content !in list.value[..r.index]
  }

  /** Whether an adopted record's place lies past what its list held before. */
  ghost predicate New(before: Draft, proposal: Proposal) {
    proposal.status.Adopted? ==>
      ListIn(before, proposal.status.reference.family, proposal.status.reference.transaction).Some? &&
      |ListIn(before, proposal.status.reference.family, proposal.status.reference.transaction).value| <=
        proposal.status.reference.index
  }

  lemma JudgedApt(draft: Draft, policy: Policy, operation: Id, submission: Submission)
    ensures var (after, status) := Judged(draft, policy, operation, submission);
            Extends(draft, after) &&
            (status.Some? ==>
               var proposal := Proposal(operation, submission.requirement, submission.origin, status.value);
               Apt(after, operation, proposal) && New(draft, proposal) &&
               if status.value.Adopted? then Adopts(policy, submission.origin)
               else status.value.Advisory? ==> !Adopts(policy, submission.origin))
  {
    hide ListIn, Landed;
    var proposed := submission.requirement;
    var list := ListIn(draft, FamilyOf(proposed), TransactionOf(proposed));
    if list.Some? {
      LandedExtends(draft, proposed);
      LandedLists(draft, proposed, FamilyOf(proposed), TransactionOf(proposed));
    }
  }

  lemma AptStays(before: Draft, after: Draft, operation: Id, proposal: Proposal)
    requires Apt(before, operation, proposal) && Extends(before, after)
    ensures Apt(after, operation, proposal)
  {
    hide ListIn;
    if !proposal.status.Advisory? {
      var r := proposal.status.reference;
      assert ListIn(before, r.family, r.transaction).value <= ListIn(after, r.family, r.transaction).value;
      assert ListIn(after, r.family, r.transaction).value[..r.index] ==
        ListIn(before, r.family, r.transaction).value[..r.index];
    }
  }

  lemma ExtendsOn(a: Draft, b: Draft, c: Draft)
    requires Extends(a, b) && Extends(b, c)
    ensures Extends(a, c)
  {
    hide ListIn;
    forall f, t
      ensures (ListIn(a, f, t).Some? <==> ListIn(c, f, t).Some?) &&
              (ListIn(a, f, t).Some? ==> ListIn(a, f, t).value <= ListIn(c, f, t).value)
    {
      assert ListIn(b, f, t) == ListIn(b, f, t);
    }
  }

  lemma NewBefore(a: Draft, b: Draft, proposal: Proposal)
    requires Extends(a, b) && New(b, proposal)
    ensures New(a, proposal)
  {
    hide ListIn;
    if proposal.status.Adopted? {
      var r := proposal.status.reference;
      assert ListIn(a, r.family, r.transaction).Some? <==> ListIn(b, r.family, r.transaction).Some?;
    }
  }

  /** The records a batch adds. */
  function Since(books: Books, after: Books): seq<Proposal>
    requires |books.proposals| <= |after.proposals|
  {
    after.proposals[|books.proposals|..]
  }

  /**
   What a batch of proposals does to the books: lists and records only grow, every new record's reference is apt, and
   nothing declared is adopted again.
   */
  ghost predicate Batch(books: Books, after: Books, operation: Id) {
    && Extends(books.draft, after.draft)
    && books.proposals <= after.proposals && books.diagnostics <= after.diagnostics
    && (forall p :: p in Since(books, after) ==> Apt(after.draft, operation, p) && New(books.draft, p))
    && OncePerAdoption(Since(books, after))
  }

  /** No two adoptions share a reference. */
  ghost predicate OncePerAdoption(proposals: seq<Proposal>) {
    forall i, j :: 0 <= i < j < |proposals| && proposals[i].status.Adopted? && proposals[j].status.Adopted? ==>
      proposals[i].status.reference != proposals[j].status.reference
  }

  lemma BatchPush(books: Books, middle: Books, after: Books, operation: Id, p: Proposal)
    requires Batch(books, middle, operation) && Extends(middle.draft, after.draft)
    requires after.proposals == middle.proposals + [p] && after.diagnostics == middle.diagnostics
    requires Apt(after.draft, operation, p) && New(middle.draft, p)
    ensures Batch(books, after, operation)
  {
    hide Apt, New, Extends;
    ExtendsOn(books.draft, middle.draft, after.draft);
    NewBefore(books.draft, middle.draft, p);
    var earlier, all := Since(books, middle), Since(books, after);
    assert all == earlier + [p];
    forall q | q in all ensures Apt(after.draft, operation, q) && New(books.draft, q) {
      if q in earlier { AptStays(middle.draft, after.draft, operation, q); }
    }
    forall i | 0 <= i < |earlier| && earlier[i].status.Adopted? && p.status.Adopted?
      ensures earlier[i].status.reference != p.status.reference {
      assert earlier[i] in earlier;
      OlderPlace(middle.draft, operation, earlier[i], p);
    }
  }

  lemma OlderPlace(draft: Draft, operation: Id, earlier: Proposal, p: Proposal)
    requires Apt(draft, operation, earlier) && New(draft, p) && earlier.status.Adopted? && p.status.Adopted?
    ensures earlier.status.reference != p.status.reference
  {
    hide ListIn;
  }

  /**
   Across any batch of proposals, whatever their origins and the policy: the lists only grow, every
   Adopted or Duplicate reference names the first declaration of what was proposed, and what is adopted
   was declared nowhere in its list before.
   */
  lemma {:induction false} BatchHolds(books: Books, policy: Policy, operation: Id, submissions: seq<Submission>)
    ensures Batch(books, BookedAll(books, policy, operation, submissions), operation)
    decreases |submissions|
  {
    if submissions == [] {
      assert Since(books, books) == [];
    } else {
      var front, last := submissions[..|submissions| - 1], submissions[|submissions| - 1];
      BatchHolds(books, policy, operation, front);
      var middle := BookedAll(books, policy, operation, front);
      JudgedApt(middle.draft, policy, operation, last);
      hide Batch, Apt, New, Extends, Judged;
      var after := Booked(middle, policy, operation, last);
      if after.proposals == middle.proposals {
        BatchDiagnosed(books, middle, after, operation);
      } else {
        BatchPush(books, middle, after, operation, after.proposals[|middle.proposals|]);
      }
    }
  }

  lemma BatchDiagnosed(books: Books, middle: Books, after: Books, operation: Id)
    requires Batch(books, middle, operation) && after.draft == middle.draft && after.proposals == middle.proposals &&
             middle.diagnostics <= after.diagnostics
    ensures Batch(books, after, operation)
  {
  }

  /** A requirement a list held before the batch is never adopted into it again. */
  lemma NeverAgain(books: Books, after: Books, operation: Id, proposal: Proposal)
    requires Batch(books, after, operation) && proposal in Since(books, after) && proposal.status.Adopted?
    ensures var list := ListIn(books.draft, FamilyOf(proposal.requirement), TransactionOf(proposal.requirement));
            list.Some? && proposal.requirement.content !in list.value
  {
    hide ListIn;
    var r := proposal.status.reference;
    assert Apt(after.draft, operation, proposal) && New(books.draft, proposal);
    var was := ListIn(books.draft, r.family, r.transaction).value;
    var now := ListIn(after.draft, r.family, r.transaction).value;
    assert was <= now && |was| <= r.index;
    assert forall i :: 0 <= i < |was| ==> was[i] == now[..r.index][i];
  }

  /** Nor are two adoptions of one batch for the same declaration. */
  lemma AdoptedApart(books: Books, after: Books, operation: Id, i: nat, j: nat)
    requires Batch(books, after, operation) && i < j < |Since(books, after)|
    requires Since(books, after)[i].status.Adopted? && Since(books, after)[j].status.Adopted?
    ensures var a, b := Since(books, after)[i].requirement, Since(books, after)[j].requirement;
            FamilyOf(a) == FamilyOf(b) && TransactionOf(a) == TransactionOf(b) ==> a.content != b.content
  {
    hide ListIn;
    var a, b := Since(books, after)[i], Since(books, after)[j];
    assert a in Since(books, after) && b in Since(books, after);
    assert Apt(after.draft, operation, a) && Apt(after.draft, operation, b);
    FirstPlaces(ListIn(after.draft, a.status.reference.family, a.status.reference.transaction),
                ListIn(after.draft, b.status.reference.family, b.status.reference.transaction),
                a.status.reference.index, b.status.reference.index);
  }

  lemma FirstPlaces(a: Option<seq<Content>>, b: Option<seq<Content>>, i: nat, j: nat)
    requires a.Some? && b.Some? && i < |a.value| && j < |b.value|
    requires a.value[i] !in a.value[..i] && b.value[j] !in b.value[..j]
    ensures a == b && a.value[i] == b.value[j] ==> i == j
  {
    if a == b {
      assert i < j ==> a.value[i] == b.value[..j][i];
      assert j < i ==> b.value[j] == a.value[..i][j];
    }
  }

  /** Whether a reference counts for an obligation: recorded, or passed over for a verdict that stands. */
  predicate Discharged(obligations: map<Id, Obligation>, id: Id, reference: Ref) {
    id in obligations &&
    match obligations[id].status
    case Unmapped => false
    case Mapped(requirements) => reference in requirements
    case _ => true
  }

  /** An obligation after a batch: its text and any verdict stand, and references are only added, each once. */
  ghost predicate Kept(before: Obligation, after: Obligation) {
    && after.text == before.text
    && (before.status.Unsupported? || before.status.Waived? ==> after.status == before.status)
    && (before.status.Mapped? ==> after.status.Mapped? && before.status.requirements <= after.status.requirements)
    && (before.status.Mapped? && Once(before.status.requirements) ==> Once(after.status.requirements))
    && (before.status.Unmapped? && after.status.Mapped? ==> Once(after.status.requirements))
    && (before.status.Unmapped? ==> after.status.Unmapped? || after.status.Mapped?)
  }

  ghost predicate AllKept(before: map<Id, Obligation>, after: map<Id, Obligation>) {
    before.Keys == after.Keys && forall id :: id in before ==> Kept(before[id], after[id])
  }

  lemma MapInKeeps(obligations: map<Id, Obligation>, id: Id, reference: Ref)
    ensures AllKept(obligations, MapIn(obligations, id, reference))
    ensures id in obligations ==> Discharged(MapIn(obligations, id, reference), id, reference)
  {
    if id in obligations { MappingKeeps(obligations[id].status, reference); }
  }

  lemma KeptSelf(a: Obligation)
    ensures Kept(a, a)
  {
  }

  lemma KeptThen(a: Obligation, b: Obligation, c: Obligation)
    requires Kept(a, b) && Kept(b, c)
    ensures Kept(a, c)
  {
    hide Once;
  }

  lemma KeptOn(a: map<Id, Obligation>, b: map<Id, Obligation>, c: map<Id, Obligation>)
    requires AllKept(a, b) && AllKept(b, c)
    ensures AllKept(a, c)
  {
    hide Kept;
    forall id | id in a ensures Kept(a[id], c[id]) { KeptThen(a[id], b[id], c[id]); }
  }

  lemma DischargedStays(before: map<Id, Obligation>, after: map<Id, Obligation>, id: Id, reference: Ref)
    requires AllKept(before, after) && Discharged(before, id, reference)
    ensures Discharged(after, id, reference)
  {
    hide Once;
    assert Kept(before[id], after[id]);
  }

  /** Whether a submission in a list speaks for an obligation. */
  predicate Prompted(submissions: seq<Submission>, id: Id) {
    exists k :: 0 <= k < |submissions| && submissions[k].origin == ExplicitPrompt(id)
  }

  /**
   What a batch records: one record or one diagnostic a submission; an explicit prompt's proposal is
   never merely advisory, and its reference is then mapped to its obligation; no other is touched.
   */
  lemma {:induction false} BatchRecords(books: Books, policy: Policy, operation: Id, submissions: seq<Submission>)
    ensures var after := BookedAll(books, policy, operation, submissions);
            Batch(books, after, operation) && AllKept(books.obligations, after.obligations) &&
            |after.proposals| + |after.diagnostics| == |books.proposals| + |books.diagnostics| + |submissions| &&
            (forall p :: p in Since(books, after) ==> Recorded(policy, operation, after.obligations, p)) &&
            (forall id :: id in books.obligations && !Prompted(submissions, id) ==>
              after.obligations[id] == books.obligations[id])
    decreases |submissions|
  {
    BatchHolds(books, policy, operation, submissions);
    if submissions != [] {
      var front, last := submissions[..|submissions| - 1], submissions[|submissions| - 1];
      BatchRecords(books, policy, operation, front);
      BatchHolds(books, policy, operation, front);
      var middle := BookedAll(books, policy, operation, front);
      JudgedApt(middle.draft, policy, operation, last);
      var after := Booked(middle, policy, operation, last);
      BookedKeeps(middle, policy, operation, last);
      hide Batch, Apt, New, Extends, Judged, Kept, Booked, Discharged;
      KeptOn(books.obligations, middle.obligations, after.obligations);
      forall p | p in Since(books, after) ensures Recorded(policy, operation, after.obligations, p) {
        if p in Since(books, middle) { RecordedStays(policy, operation, middle.obligations, after.obligations, p); }
      }
      forall id | id in books.obligations && !Prompted(submissions, id)
        ensures after.obligations[id] == books.obligations[id] {
        NotPrompted(submissions, id);
      }
    }
  }

  lemma NotPrompted(submissions: seq<Submission>, id: Id)
    requires submissions != [] && !Prompted(submissions, id)
    ensures !Prompted(submissions[..|submissions| - 1], id) &&
            submissions[|submissions| - 1].origin != ExplicitPrompt(id)
  {
  }

  /** What a record says of the submission it is for. */
  predicate Recorded(policy: Policy, operation: Id, obligations: map<Id, Obligation>, p: Proposal) {
    && p.operation == operation
    && (p.status.Adopted? ==> Adopts(policy, p.origin))
    && (p.status.Advisory? ==> !Adopts(policy, p.origin))
    && (p.origin.ExplicitPrompt? ==>
         !p.status.Advisory? && Discharged(obligations, p.origin.obligation, p.status.reference))
  }

  lemma RecordedStays(policy: Policy, operation: Id, before: map<Id, Obligation>, after: map<Id, Obligation>,
      p: Proposal)
    requires Recorded(policy, operation, before, p) && AllKept(before, after)
    ensures Recorded(policy, operation, after, p)
  {
    hide Kept, Discharged, AllKept;
    if p.origin.ExplicitPrompt? { DischargedStays(before, after, p.origin.obligation, p.status.reference); }
  }

  lemma BookedKeeps(books: Books, policy: Policy, operation: Id, last: Submission)
    ensures var after := Booked(books, policy, operation, last);
            AllKept(books.obligations, after.obligations) &&
            (if |after.proposals| == |books.proposals|
             then after.proposals == books.proposals && |after.diagnostics| == |books.diagnostics| + 1 &&
                  after.obligations == books.obligations
             else after.diagnostics == books.diagnostics && |after.proposals| == |books.proposals| + 1 &&
                  books.proposals <= after.proposals &&
                  Recorded(policy, operation, after.obligations, after.proposals[|books.proposals|])) &&
            (forall id :: id in books.obligations && last.origin != ExplicitPrompt(id) ==>
              after.obligations[id] == books.obligations[id])
  {
    JudgedApt(books.draft, policy, operation, last);
    AllKeptSelf(books.obligations);
    var (draft, status) := Judged(books.draft, policy, operation, last);
    hide Judged, Apt, New, Extends, Kept, Mapping, Discharged;
    if last.origin.ExplicitPrompt? && status.Some? && !status.value.Advisory? {
      MapInKeeps(books.obligations, last.origin.obligation, status.value.reference);
    }
  }

  /**
   What each submission in turn comes to: a diagnostic if what it answers or lands in is not there; else
   one record, Duplicate exactly if its list holds the content already, and otherwise Adopted, last in
   its list, exactly as the policy has it for its origin.
   */
  lemma SubmissionJudged(books: Books, policy: Policy, operation: Id, submission: Submission)
    ensures var after := Booked(books, policy, operation, submission);
            var proposed, origin := submission.requirement, submission.origin;
            var list := ListIn(books.draft, FamilyOf(proposed), TransactionOf(proposed));
            if origin.ExplicitPrompt? && origin.obligation !in books.obligations then
              after == books.(diagnostics := books.diagnostics + [Undeclared(PromptObligation(origin.obligation))])
            else if list.None? then
              after == books.(diagnostics := books.diagnostics +
                         [NoTransaction(OperationRequirementsOf(operation), proposed.transaction)])
            else
              && after.diagnostics == books.diagnostics
              && |after.proposals| == |books.proposals| + 1 && books.proposals <= after.proposals
              && var p := after.proposals[|books.proposals|];
                 && p == Proposal(operation, proposed, origin, p.status)
                 && (p.status.Duplicate? <==> proposed.content in list.value)
                 && (p.status.Adopted? <==>
                       proposed.content !in list.value &&
                       (origin.ExplicitPrompt? ||
                        (origin.StronglyImplied? && policy.strictRequirements) ||
                        (origin.Recommended? && policy.adoptRecommended)))
                 && (p.status.Adopted? ==>
                       p.status.reference == Ref(operation, FamilyOf(proposed), TransactionOf(proposed), |list.value|))
                 && forall f, t :: ListIn(after.draft, f, t) ==
                      if p.status.Adopted? && f == FamilyOf(proposed) && t == TransactionOf(proposed)
                      then Some(list.value + [proposed.content]) else ListIn(books.draft, f, t)
  {
    var proposed := submission.requirement;
    if ListIn(books.draft, FamilyOf(proposed), TransactionOf(proposed)).Some? {
      var at := Position(ListIn(books.draft, FamilyOf(proposed), TransactionOf(proposed)).value, proposed.content);
      forall f, t ensures ListIn(Landed(books.draft, proposed), f, t) ==
          if f == FamilyOf(proposed) && t == TransactionOf(proposed)
          then Some(ListIn(books.draft, f, t).value + [proposed.content]) else ListIn(books.draft, f, t)
      {
        LandedLists(books.draft, proposed, f, t);
      }
    }
    hide ListIn, Landed, MapIn, FamilyOf, TransactionOf;
  }

  /** A draft's stage tells what it holds: no program, a program, or a program and requirements declared somewhere. */
  predicate StageTells(draft: Draft) {
    && (draft.stage.Planned? <==> draft.program.None?)
    && (draft.stage.RequirementsProposed? <==>
          draft.program.Some? &&
          (|draft.requirements.idempotency| > 0 || |draft.requirements.recoverability| > 0 ||
           exists t :: t in Transactions(draft.program.value) && |t.serializability| + |t.ordering| > 0))
    && (draft.stage.ProgramProposed? || draft.stage.Planned? || draft.stage.RequirementsProposed?)
  }

  /** The stage is set by what the draft holds, unless it is signed off, which stays. */
  lemma StagedTells(draft: Draft)
    ensures Staged(draft) == draft.(stage := Staged(draft).stage)
    ensures if draft.stage == ReadyForAssembly then Staged(draft) == draft else StageTells(Staged(draft))
  {
    hide Transactions;
  }

  lemma AllKeptSelf(obligations: map<Id, Obligation>)
    ensures AllKept(obligations, obligations)
  {
  }
}
