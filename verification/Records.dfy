/**
 Conformance records: attesting a declaration and reviewing its record, over one record file that a
 write replaces only when it is the file the writer names.

 A file's digest is represented by the file itself, its fingerprint being injective. What the spec and
 the scanned code say of the declaration at the moment of a call is a `View`.
 */
module Records {
  import opened Common
  import opened CallGraph
  import opened Drift

  datatype PartyKind = Agent | Person | Checker

  datatype Party = Party(kind: PartyKind, name: string, job: Option<string>)

  /** Two parties are one by kind and name, whatever jobs they acted in. */
  predicate SameParty(a: Party, b: Party) {
    a.kind == b.kind && a.name == b.name
  }

  datatype Verdict = Confirmed | Disputed

  datatype Target = FactAt(index: nat) | ClaimAt(index: nat) | Structure

  datatype Item = Item(target: Target, verdict: Verdict, note: string)

  datatype Review = Review(party: Party, digests: seq<Digest>, verdict: Verdict, items: seq<Item>)

  /** A fact by the place of its canonical form, and its evidence spans by theirs. */
  datatype Attested = Attested(fact: nat, evidence: seq<nat>)

  datatype Claim = Claim(publishers: bool, patterns: seq<string>, exceptions: seq<string>)

  datatype Record = Record(
    residual: string,
    regions: seq<Region>,
    structural: bool,
    realization: Option<string>,
    facts: seq<Attested>,
    claims: seq<Claim>,
    party: Party,
    commit: Option<string>,
    reviews: seq<Review>)

  /** A record file: one this build reads, or one of another version, set aside unread. */
  datatype File = Read(record: Record) | OtherVersion(text: string)

  /**
   What a call finds: the declaration's residual, regions and realization; whether an attest passes
   the checks on the declaration, its facts, evidence and claims; whether a packet's read set is stale;
   and the commit the tree is based on.
   */
  datatype View = View(
    known: bool,
    residual: string,
    regions: seq<Region>,
    realization: Option<string>,
    admitted: bool,
    readStale: bool,
    commit: Option<string>)

  /** The read set of a packet names the record file the caller read, or that there was none. */
  datatype AttestInput = AttestInput(facts: seq<Attested>, structural: bool, claims: seq<Claim>,
      readSet: Option<Option<File>>)

  datatype ReviewInput = ReviewInput(verdict: Verdict, items: seq<Item>, record: Option<File>)

  datatype Outcome =
    | NotAdmitted | Malformed | StaleRead | RecordChanged
    | NoRecord | DriftedCode | StaleSpec
    | Done(written: bool)

  predicate Named(party: Party) {
    party.name != "" && (party.job.Some? ==> party.job.value != "")
  }

  predicate InRange(record: Record, target: Target) {
    match target
    case FactAt(index) => index < |record.facts|
    case ClaimAt(index) => index < |record.claims|
    case Structure => true
  }

  /** The format's rules: no fact twice, each with evidence, named parties, items in range. */
  predicate Check(record: Record) {
    Distinct(record.facts) && Evidenced(record.facts) && Named(record.party) &&
    forall i :: 0 <= i < |record.reviews| ==> Fits(record, record.reviews[i])
  }

  /** A review by a named party whose items name facts and claims the record has. */
  predicate Fits(record: Record, review: Review) {
    && Named(review.party)
    && forall k :: 0 <= k < |review.items| ==> InRange(record, review.items[k].target)
  }

  function Digests(record: Record): seq<Digest> {
    Sorted(DigestsOf(record.regions))
  }

  /** Whether a review saw exactly the record's regions. */
  predicate ReviewedAsRecorded(record: Record, review: Review) {
    Sorted(review.digests) == Digests(record)
  }

  /** The reviews that saw exactly the record's regions. */
  function Surviving(record: Record, reviews: seq<Review>): seq<Review> {
    if reviews == [] then [] else
    Surviving(record, reviews[..|reviews| - 1]) +
    (if ReviewedAsRecorded(record, reviews[|reviews| - 1]) then [reviews[|reviews| - 1]] else [])
  }

  /** Replaces the regions, dropping every review that saw others. */
  function Rebind(record: Record, regions: seq<Region>): Record {
    var bound := record.(regions := regions);
    bound.(reviews := Surviving(bound, record.reviews))
  }

  function InsertFact(facts: seq<Attested>, x: Attested): seq<Attested> {
    if facts == [] || facts[|facts| - 1].fact <= x.fact then facts + [x]
    else InsertFact(facts[..|facts| - 1], x) + [facts[|facts| - 1]]
  }

  /** Facts by canonical form, each span once, in order. */
  function Canonical(facts: seq<Attested>): seq<Attested> {
    if facts == [] then [] else
    var last := facts[|facts| - 1];
    InsertFact(Canonical(facts[..|facts| - 1]), last.(evidence := Ascending(set s | s in last.evidence)))
  }

  function FactNames(facts: seq<Attested>): seq<nat> {
    seq(|facts|, i requires 0 <= i < |facts| => facts[i].fact)
  }

  /** The record an attest makes, before it takes over any review. */
  function Drafted(view: View, input: AttestInput, party: Party): Record {
    Record(view.residual, view.regions, input.structural, view.realization, input.facts, input.claims, party,
      view.commit, [])
  }

  /** Whether two records attest the same things of the same code; evidence is not compared. */
  predicate AttestsTheSame(previous: Record, record: Record) {
    && previous.residual == record.residual
    && previous.structural == record.structural
    && previous.realization == record.realization
    && FactNames(previous.facts) == FactNames(record.facts)
    && previous.claims == record.claims
    && Digests(previous) == Digests(record)
  }

  predicate SameButCommit(previous: Record, record: Record) {
    previous.(commit := record.commit) == record
  }

  /** The record an attest writes over a file: its own, with the reviews that still cover it. */
  function Settled(view: View, input: AttestInput, party: Party, file: Option<File>): Record {
    var drafted := Drafted(view, input, party);
    var record := drafted.(facts := Canonical(drafted.facts));
    if file.Some? && file.value.Read? && AttestsTheSame(file.value.record, record)
    then record.(reviews := Surviving(record, file.value.record.reviews))
    else record
  }

  /** Attesting, from the file found to the outcome and the file left. */
  function AttestOver(view: View, input: AttestInput, party: Party, file: Option<File>): (Outcome, Option<File>) {
    if !view.admitted then (NotAdmitted, file)
    else if !Check(Drafted(view, input, party)) then (Malformed, file)
    else if input.readSet.Some? && view.readStale then (StaleRead, file)
    else
      var record := Settled(view, input, party, file);
      if file.Some? && file.value.Read? && SameButCommit(file.value.record, record) then (Done(false), file)
      else
        var named := if input.readSet.Some? then input.readSet.value else file;
        if !Check(record) then (Malformed, file)
        else if named != file then (RecordChanged, file)
        else (Done(true), Some(Read(record)))
  }

  /** Whether the spec changed since a record was attested: its residual, or what realizes it. */
  predicate Stale(view: View, record: Record) {
    view.residual != record.residual || view.realization != record.realization
  }

  /** The first review by the same party. */
  function EarlierBy(reviews: seq<Review>, review: Review): (at: nat)
    ensures at <= |reviews|
    ensures at < |reviews| ==>
              SameParty(reviews[at].party, review.party) && Sorted(reviews[at].digests) == Sorted(review.digests)
    ensures forall i :: 0 <= i < at ==>
              !SameParty(reviews[i].party, review.party) || Sorted(reviews[i].digests) != Sorted(review.digests)
    decreases |reviews|
  {
    if reviews == [] then 0
    else if SameParty(reviews[0].party, review.party) && Sorted(reviews[0].digests) == Sorted(review.digests) then 0
    else 1 + EarlierBy(reviews[1..], review)
  }

  /** The review a party makes of a record that has not drifted: of the record's own digests. */
  function MadeReview(record: Record, input: ReviewInput, party: Party): Review {
    Review(party, Digests(record), input.verdict, input.items)
  }

  /** A review put in the place of the party's earlier one at the same digests, or last. */
  function Put(reviews: seq<Review>, review: Review): seq<Review> {
    var at := EarlierBy(reviews, review);
    if at < |reviews| then reviews[at := review] else reviews + [review]
  }

  /** The record with a review put in the place of the party's earlier one, or last. */
  function WithReview(record: Record, input: ReviewInput, party: Party): Record {
    var review := MadeReview(record, input, party);
    var bound := Rebind(record, record.regions);
    bound.(reviews := Put(bound.reviews, review))
  }

  /** Reviewing, from the file found to the outcome and the file left. */
  function ReviewOver(view: View, input: ReviewInput, party: Party, file: Option<File>): (Outcome, Option<File>) {
    if !view.known then (NotAdmitted, file)
    else if file.None? || !file.value.Read? then (NoRecord, file)
    else
      var previous := file.value.record;
      if Digests(previous) != Sorted(DigestsOf(view.regions)) then (DriftedCode, file)
      else if Stale(view, previous) then (StaleSpec, file)
      else
        var record := WithReview(previous, input, party);
        if !Check(record) then (Malformed, file)
        else if record == previous then (Done(false), file)
        else
          var named := if input.record.Some? then input.record else file;
          if named != file then (RecordChanged, file) else (Done(true), Some(Read(record)))
  }

  /** The record store of one declaration. */
  class Store {
    var file: Option<File>

    constructor ()
      ensures file == None
    {
      file := None;
    }

    /** Compares and replaces: a write takes effect only over the file it names. */
    method Write(record: Record, named: Option<File>) returns (outcome: Outcome)
      modifies this
      ensures outcome == if !Check(record) then Malformed
                         else if named != old(file) then RecordChanged else Done(true)
      ensures file == if outcome == Done(true) then Some(Read(record)) else old(file)
    {
      if !Check(record) { return Malformed; }
      if file != named { return RecordChanged; }
      file := Some(Read(record));
      outcome := Done(true);
    }

    method Attest(view: View, input: AttestInput, party: Party) returns (outcome: Outcome)
      modifies this
      ensures (outcome, file) == AttestOver(view, input, party, old(file))
    {
      if !view.admitted { return NotAdmitted; }
      var record := Drafted(view, input, party);
      if !Check(record) { return Malformed; }
      record := record.(facts := Canonical(record.facts));
      if input.readSet.Some? && view.readStale { return StaleRead; }
      if file.Some? && file.value.Read? {
        var previous := file.value.record;
        if AttestsTheSame(previous, record) {
          record := record.(reviews := Surviving(record, previous.reviews));
        }
        if SameButCommit(previous, record) { return Done(false); }
      }
      var named := if input.readSet.Some? then input.readSet.value else file;
      outcome := Write(record, named);
    }

    method Review(view: View, input: ReviewInput, party: Party) returns (outcome: Outcome)
      modifies this
      ensures (outcome, file) == ReviewOver(view, input, party, old(file))
    {
      if !view.known { return NotAdmitted; }
      if file.None? || !file.value.Read? { return NoRecord; }
      var previous := file.value.record;
      var added, removed := Drift.Drift(previous.regions, view.regions);
      SortedIsMultiset(DigestsOf(previous.regions), DigestsOf(view.regions));
      if added != [] || removed != [] { return DriftedCode; }
      if Stale(view, previous) { return StaleSpec; }
      var review := MadeReview(previous, input, party);
      var record := Rebind(previous, previous.regions);
      var earlier := EarlierBy(record.reviews, review);
      if earlier < |record.reviews| {
        record := record.(reviews := record.reviews[earlier := review]);
      } else {
        record := record.(reviews := record.reviews + [review]);
      }
      if !Check(record) { return Malformed; }
      if record == previous { return Done(false); }
      var named := if input.record.Some? then input.record else file;
      outcome := Write(record, named);
    }
  }

  /**
   What every run keeps of a stored record: its facts come strictly in order, each review saw exactly
   the record's regions, each party has at most one, and every item names a fact or claim it has.
   */
  ghost predicate Valid(record: Record) {
    && Ordered(record.facts)
    && (forall i :: 0 <= i < |record.reviews| ==> ReviewedAsRecorded(record, record.reviews[i]))
    && (forall i, j :: 0 <= i < j < |record.reviews| ==> !SameParty(record.reviews[i].party, record.reviews[j].party))
    && Check(record)
  }

  ghost predicate Tidy(file: Option<File>) {
    file.Some? && file.value.Read? ==> Valid(file.value.record)
  }

  lemma {:induction false} SurvivingMembers(record: Record, reviews: seq<Review>, x: Review)
    ensures x in Surviving(record, reviews) <==> x in reviews && ReviewedAsRecorded(record, x)
  {
    if reviews != [] {
      SurvivingMembers(record, reviews[..|reviews| - 1], x);
      assert reviews == reviews[..|reviews| - 1] + [reviews[|reviews| - 1]];
    }
  }

  lemma {:induction false} AllSurvive(record: Record, reviews: seq<Review>)
    requires forall i :: 0 <= i < |reviews| ==> ReviewedAsRecorded(record, reviews[i])
    ensures Surviving(record, reviews) == reviews
  {
    if reviews != [] {
      AllSurvive(record, reviews[..|reviews| - 1]);
      assert reviews == reviews[..|reviews| - 1] + [reviews[|reviews| - 1]];
    }
  }

  ghost predicate Ordered(facts: seq<Attested>) {
    forall i, j :: 0 <= i < j < |facts| ==> facts[i].fact < facts[j].fact
  }

  predicate Distinct(facts: seq<Attested>) {
    forall i, j :: 0 <= i < j < |facts| ==> facts[i].fact != facts[j].fact
  }

  predicate Evidenced(facts: seq<Attested>) {
    forall i :: 0 <= i < |facts| ==> facts[i].evidence != []
  }

  ghost function Facts(facts: seq<Attested>): set<nat> {
    set x | x in facts :: x.fact
  }

  lemma FactsPush(facts: seq<Attested>, x: Attested)
    ensures Facts(facts + [x]) == Facts(facts) + {x.fact}
  {
    assert x in facts + [x];
  }

  lemma LastFact(facts: seq<Attested>)
    requires facts != []
    ensures Facts(facts) == Facts(facts[..|facts| - 1]) + {facts[|facts| - 1].fact}
  {
    assert facts == facts[..|facts| - 1] + [facts[|facts| - 1]];
    FactsPush(facts[..|facts| - 1], facts[|facts| - 1]);
  }

  lemma InsertFactLast(facts: seq<Attested>, x: Attested)
    requires Ordered(facts) && Evidenced(facts) && x.evidence != [] && x.fact !in Facts(facts)
    requires facts == [] || facts[|facts| - 1].fact <= x.fact
    ensures Ordered(facts + [x]) && Evidenced(facts + [x])
  {
    forall i | 0 <= i < |facts| ensures facts[i].fact < x.fact {
      assert facts[i] in facts && facts[|facts| - 1] in facts;
    }
  }

  lemma {:induction false} InsertFactOrder(facts: seq<Attested>, x: Attested)
    requires Ordered(facts) && Evidenced(facts) && x.evidence != [] && x.fact !in Facts(facts)
    ensures Ordered(InsertFact(facts, x)) && Evidenced(InsertFact(facts, x))
    ensures Facts(InsertFact(facts, x)) == Facts(facts) + {x.fact}
  {
    if facts != [] && x.fact < facts[|facts| - 1].fact {
      var rest, last := facts[..|facts| - 1], facts[|facts| - 1];
      LastFact(facts);
      InsertFactOrder(rest, x);
      var r := InsertFact(rest, x);
      hide InsertFact, Facts;
      forall n | n in Facts(rest) ensures n < last.fact { BelowLast(facts, n); }
      PushOrder(r, last);
      FactsPush(r, last);
    } else {
      InsertFactLast(facts, x);
      FactsPush(facts, x);
    }
  }

  lemma PushOrder(facts: seq<Attested>, last: Attested)
    requires Ordered(facts) && Evidenced(facts) && last.evidence != []
    requires forall n :: n in Facts(facts) ==> n < last.fact
    ensures Ordered(facts + [last]) && Evidenced(facts + [last])
  {
    forall i | 0 <= i < |facts| ensures facts[i].fact < last.fact {
      assert facts[i] in facts && facts[i].fact in Facts(facts);
    }
  }

  lemma BelowLast(facts: seq<Attested>, n: nat)
    requires Ordered(facts) && facts != []
    ensures n in Facts(facts[..|facts| - 1]) ==> n < facts[|facts| - 1].fact
  {
    if n in Facts(facts[..|facts| - 1]) {
      var y :| y in facts[..|facts| - 1] && y.fact == n;
    }
  }

  /** Holding facts canonically keeps which facts there are, and that each has evidence. */
  lemma {:induction false} CanonicalOrder(facts: seq<Attested>)
    requires Distinct(facts) && Evidenced(facts)
    ensures Ordered(Canonical(facts)) && Evidenced(Canonical(facts))
    ensures Facts(Canonical(facts)) == Facts(facts)
  {
    if facts != [] {
      var rest, last := facts[..|facts| - 1], facts[|facts| - 1];
      CanonicalOrder(rest);
      EvidenceKept(last.evidence);
      LastFact(facts);
      assert last.fact !in Facts(rest);
      hide Ordered, Evidenced, Ascending;
      InsertFactOrder(Canonical(rest), last.(evidence := Ascending(set s | s in last.evidence)));
    }
  }

  lemma EvidenceKept(evidence: seq<nat>)
    requires evidence != []
    ensures Ascending(set s | s in evidence) != []
  {
    var spans := set s | s in evidence;
    assert evidence[0] in spans;
    assert evidence[0] in Ascending(spans);
  }

  /** The record an attest settles on is valid: its facts in order, its surviving reviews still apt. */
  lemma SettledValid(view: View, input: AttestInput, party: Party, file: Option<File>)
    requires Tidy(file) && Check(Drafted(view, input, party))
    ensures Valid(Settled(view, input, party, file))
  {
    CanonicalOrder(input.facts);
    var record := Drafted(view, input, party).(facts := Canonical(input.facts));
    hide Canonical, Evidenced, Named, Ordered, AttestsTheSame, Surviving, Distinct, ReviewedAsRecorded, Fits;
    BareValid(record);
    if file.Some? && file.value.Read? && AttestsTheSame(file.value.record, record) {
      KeptValid(file.value.record, record);
    }
  }

  lemma BareValid(record: Record)
    requires Ordered(record.facts) && Evidenced(record.facts) && Named(record.party) && record.reviews == []
    ensures Valid(record)
  {
  }

  /** The reviews of a valid record are valid of one that attests the same. */
  lemma KeptValid(previous: Record, record: Record)
    requires Valid(previous) && Valid(record) && AttestsTheSame(previous, record)
    ensures Valid(record.(reviews := Surviving(record, previous.reviews)))
  {
    hide Digests, Sorted, Surviving, Evidenced, Named, SameParty, FactNames;
    AllAlike(previous, record);
    NamesMatch(previous.facts, record.facts);
    var kept := record.(reviews := previous.reviews);
    forall i | 0 <= i < |kept.reviews|
      ensures Fits(kept, kept.reviews[i]) && ReviewedAsRecorded(kept, kept.reviews[i]) {
      assert Fits(previous, previous.reviews[i]);
      SameRegions(record, kept, previous.reviews[i]);
    }
    hide ReviewedAsRecorded, Fits;
  }

  /** Whether a review saw a record's regions depends on those alone. */
  lemma SameRegions(a: Record, b: Record, review: Review)
    requires a.regions == b.regions
    ensures ReviewedAsRecorded(a, review) <==> ReviewedAsRecorded(b, review)
  {
  }

  /** Reviews that saw a record's regions saw those of any record with the same digests. */
  lemma AllAlike(previous: Record, record: Record)
    requires Digests(previous) == Digests(record)
    requires forall i :: 0 <= i < |previous.reviews| ==> ReviewedAsRecorded(previous, previous.reviews[i])
    ensures Surviving(record, previous.reviews) == previous.reviews
    ensures forall i :: 0 <= i < |previous.reviews| ==> ReviewedAsRecorded(record, previous.reviews[i])
  {
    hide Digests, Sorted;
    forall i | 0 <= i < |previous.reviews| ensures ReviewedAsRecorded(record, previous.reviews[i]) {
      assert ReviewedAsRecorded(previous, previous.reviews[i]);
    }
    AllSurvive(record, previous.reviews);
  }

  lemma WithReviewValid(record: Record, input: ReviewInput, party: Party)
    requires Valid(record) && Check(WithReview(record, input, party))
    ensures Valid(WithReview(record, input, party))
  {
    PutIn(record, input, party);
    hide WithReview, MadeReview, Check, Sorted, DigestsOf, Digests, Ordered, Put, SameParty;
    var review := MadeReview(record, input, party);
    DigestsSorted(record);
    MadeBy(record, input, party);
    PutOnce(record, review);
    var after := WithReview(record, input, party);
    forall i | 0 <= i < |after.reviews| ensures ReviewedAsRecorded(after, after.reviews[i]) {
      SameRegions(record, after, after.reviews[i]);
    }
  }

  /** Putting a review of the record's digests in keeps each party to one review, all of the record. */
  lemma PutOnce(record: Record, review: Review)
    requires ReviewedAsRecorded(record, review)
    requires forall i :: 0 <= i < |record.reviews| ==> ReviewedAsRecorded(record, record.reviews[i])
    requires forall i, j :: 0 <= i < j < |record.reviews| ==>
               !SameParty(record.reviews[i].party, record.reviews[j].party)
    ensures var after := Put(record.reviews, review);
            (forall i :: 0 <= i < |after| ==> ReviewedAsRecorded(record, after[i])) &&
            (forall i, j :: 0 <= i < j < |after| ==> !SameParty(after[i].party, after[j].party))
  {
    hide Sorted, Digests;
    var reviews := record.reviews;
    var after := Put(reviews, review);
    var at := EarlierBy(reviews, review);
    forall i, j | 0 <= i < j < |after| ensures !SameParty(after[i].party, after[j].party) {
      if j < |reviews| {
        assert !SameParty(reviews[i].party, reviews[j].party);
      } else {
        assert ReviewedAsRecorded(record, reviews[i]);
      }
    }
  }

  /** A valid record loses no review to the rebinding. */
  lemma PutIn(record: Record, input: ReviewInput, party: Party)
    requires Valid(record)
    ensures WithReview(record, input, party) ==
            record.(reviews := Put(record.reviews, MadeReview(record, input, party)))
    ensures ReviewedAsRecorded(record, MadeReview(record, input, party))
  {
    DigestsSorted(record);
    hide Sorted, DigestsOf, Digests, Check, Ordered, SameParty, Put;
    AllSurvive(record, record.reviews);
    assert Rebind(record, record.regions) == record;
  }

  lemma DigestsSorted(record: Record)
    ensures Sorted(Digests(record)) == Digests(record)
  {
    SortedAscends(DigestsOf(record.regions));
    SortedIsMultiset(Digests(record), DigestsOf(record.regions));
  }

  datatype Step =
    | AttestStep(attestView: View, attest: AttestInput, attester: Party)
    | ReviewStep(reviewView: View, review: ReviewInput, reviewer: Party)

  function Apply(file: Option<File>, step: Step): (Outcome, Option<File>) {
    match step
    case AttestStep(view, input, party) => AttestOver(view, input, party, file)
    case ReviewStep(view, input, party) => ReviewOver(view, input, party, file)
  }

  function Run(file: Option<File>, steps: seq<Step>): Option<File>
    decreases |steps|
  {
    if steps == [] then file else Run(Apply(file, steps[0]).1, steps[1..])
  }

  lemma StepTidy(file: Option<File>, step: Step)
    requires Tidy(file)
    ensures Tidy(Apply(file, step).1)
  {
    match step
    case AttestStep(view, input, party) =>
      if Check(Drafted(view, input, party)) { SettledValid(view, input, party, file); }
    case ReviewStep(view, input, party) =>
      if file.Some? && file.value.Read? && Check(WithReview(file.value.record, input, party)) {
        WithReviewValid(file.value.record, input, party);
      }
  }

  /** Every run of attests and reviews, whatever each finds and whoever calls, keeps the record valid. */
  lemma {:induction false} RunTidy(file: Option<File>, steps: seq<Step>)
    requires Tidy(file)
    ensures Tidy(Run(file, steps))
    decreases |steps|
  {
    if steps != [] {
      StepTidy(file, steps[0]);
      RunTidy(Apply(file, steps[0]).1, steps[1..]);
    }
  }

  datatype Meaning = AFact(fact: nat) | AClaim(claim: Claim) | TheStructure(residual: string, structural: bool)
      | Nothing

  /** What an item's target is, in a record. */
  function MeaningIn(record: Record, target: Target): Meaning {
    match target
    case FactAt(index) => if index < |record.facts| then AFact(record.facts[index].fact) else Nothing
    case ClaimAt(index) => if index < |record.claims| then AClaim(record.claims[index]) else Nothing
    case Structure => TheStructure(record.residual, record.structural)
  }

  function ReviewsIn(file: Option<File>): seq<Review> {
    if file.Some? && file.value.Read? then file.value.record.reviews else []
  }

  /** A review that a step leaves in place goes on meaning what it meant, item by item. */
  lemma StepKeepsMeaning(file: Option<File>, step: Step, review: Review, target: Target)
    requires Tidy(file) && review in ReviewsIn(file)
    ensures var after := Apply(file, step).1;
            review in ReviewsIn(after) ==>
              MeaningIn(after.value.record, target) == MeaningIn(file.value.record, target)
  {
    hide Valid, Check, Settled, WithReview, Canonical, AttestOver, ReviewOver;
    match step
    case AttestStep(view, input, party) =>
      AttestShape(view, input, party, file);
      SettledKeeps(view, input, party, file, target);
    case ReviewStep(view, input, party) =>
      ReviewShape(view, input, party, file);
  }

  /** Whether a step is a review that succeeds over a record and makes there the review given. */
  predicate Makes(file: Option<File>, step: Step, review: Review) {
    && step.ReviewStep? && file.Some? && file.value.Read?
    && Apply(file, step).0.Done?
    && review == MadeReview(file.value.record, step.review, step.reviewer)
  }

  /** The only review a step brings is the one it makes. */
  lemma StepBrings(file: Option<File>, step: Step, review: Review)
    requires Tidy(file) && review in ReviewsIn(Apply(file, step).1) && review !in ReviewsIn(file)
    ensures Makes(file, step, review)
  {
    hide Valid, Check, Settled, WithReview, Canonical, AttestOver, ReviewOver;
    match step
    case AttestStep(view, input, party) =>
      AttestShape(view, input, party, file);
      SettledBrings(view, input, party, file, review);
    case ReviewStep(view, input, party) =>
      ReviewShape(view, input, party, file);
      PutBrings(file.value.record, input, party, review);
      ReviewMoves(view, input, party, file);
  }

  lemma SettledBrings(view: View, input: AttestInput, party: Party, file: Option<File>, review: Review)
    ensures review in Settled(view, input, party, file).reviews ==> review in ReviewsIn(file)
  {
    var settled := Settled(view, input, party, file);
    if settled.reviews != [] {
      SurvivingMembers(Anew(view, input, party), file.value.record.reviews, review);
    }
  }

  lemma PutBrings(record: Record, input: ReviewInput, party: Party, review: Review)
    requires Valid(record) && review in WithReview(record, input, party).reviews && review !in record.reviews
    ensures review == MadeReview(record, input, party)
  {
    PutIn(record, input, party);
    hide WithReview, MadeReview, Check, Sorted, Digests, SameParty;
  }

  /** Only a review that succeeds changes the file. */
  lemma ReviewMoves(view: View, input: ReviewInput, party: Party, file: Option<File>)
    ensures ReviewOver(view, input, party, file).1 != file ==> ReviewOver(view, input, party, file).0.Done?
  {
    hide Check, WithReview, Digests, Sorted, DigestsOf;
  }

  lemma {:induction false} RunLast(file: Option<File>, steps: seq<Step>)
    requires steps != []
    ensures Run(file, steps) == Apply(Run(file, steps[..|steps| - 1]), steps[|steps| - 1]).1
    decreases |steps|
  {
    if |steps| > 1 {
      RunLast(Apply(file, steps[0]).1, steps[1..]);
      assert steps[1..][..|steps| - 2] == steps[..|steps| - 1][1..];
    }
  }

  /**
   Over every run, each review stored in the end was made by one of the steps, and every item of it
   still means what it meant in the record that step found.
   */
  lemma {:induction false} StoredReviewMeans(steps: seq<Step>, review: Review) returns (at: nat)
    requires review in ReviewsIn(Run(None, steps))
    ensures at < |steps| && Makes(Run(None, steps[..at]), steps[at], review)
    ensures forall target :: MeaningIn(Run(None, steps).value.record, target) ==
                             MeaningIn(Run(None, steps[..at]).value.record, target)
    decreases |steps|
  {
    hide Valid, Settled, WithReview, AttestOver, ReviewOver, MeaningIn, Makes, Apply;
    var last := |steps| - 1;
    var before := Run(None, steps[..last]);
    RunLast(None, steps);
    RunTidy(None, steps[..last]);
    if review in ReviewsIn(before) {
      at := StoredReviewMeans(steps[..last], review);
      assert steps[..last][..at] == steps[..at];
      forall target ensures MeaningIn(Run(None, steps).value.record, target) == MeaningIn(before.value.record, target) {
        StepKeepsMeaning(before, steps[last], review, target);
      }
    } else {
      at := last;
      StepBrings(before, steps[last], review);
      MadeMeans(before, steps[last], review);
    }
  }

  /** Making a review leaves what its items mean. */
  lemma MadeMeans(file: Option<File>, step: Step, review: Review)
    requires Tidy(file) && Makes(file, step, review)
    ensures forall target ::
              MeaningIn(Apply(file, step).1.value.record, target) == MeaningIn(file.value.record, target)
  {
    ReviewKeepsRest(file, step);
    hide Valid, Check, WithReview, ReviewOver;
  }

  /** An attest leaves the file alone or writes the record it settles on. */
  lemma AttestShape(view: View, input: AttestInput, party: Party, file: Option<File>)
    ensures var after := AttestOver(view, input, party, file).1;
            after == file || after == Some(Read(Settled(view, input, party, file)))
  {
    hide Check, Settled, Drafted, SameButCommit;
  }

  /** A review leaves the file alone or writes its record with the review put in. */
  lemma ReviewShape(view: View, input: ReviewInput, party: Party, file: Option<File>)
    ensures var after := ReviewOver(view, input, party, file).1;
            after == file ||
            (file.Some? && file.value.Read? && after == Some(Read(WithReview(file.value.record, input, party))) &&
             after.value.record == file.value.record.(reviews := after.value.record.reviews))
  {
    hide Check, Digests, Sorted, DigestsOf, Surviving, EarlierBy, MadeReview;
  }

  lemma SettledKeeps(view: View, input: AttestInput, party: Party, file: Option<File>, target: Target)
    requires file.Some? && file.value.Read?
    ensures var after := Settled(view, input, party, file);
            after.reviews != [] ==> MeaningIn(after, target) == MeaningIn(file.value.record, target)
  {
    hide Canonical, FactNames, Digests, Surviving;
    NamesMatch(file.value.record.facts, Anew(view, input, party).facts);
  }

  lemma NamesMatch(a: seq<Attested>, b: seq<Attested>)
    ensures FactNames(a) == FactNames(b) <==>
            |a| == |b| && forall i :: 0 <= i < |a| ==> a[i].fact == b[i].fact
  {
    if FactNames(a) == FactNames(b) {
      assert |FactNames(a)| == |a| && |FactNames(b)| == |b|;
      forall i | 0 <= i < |a| ensures a[i].fact == b[i].fact {
        assert FactNames(a)[i] == FactNames(b)[i];
      }
    }
  }

  /** Reviews in between change nothing of a record but its reviews. */
  lemma ReviewKeepsRest(file: Option<File>, step: Step)
    requires Tidy(file) && step.ReviewStep? && file.Some? && file.value.Read?
    ensures var after := Apply(file, step).1;
            after.Some? && after.value.Read? &&
              after.value.record == file.value.record.(reviews := after.value.record.reviews)
  {
    hide Valid, Check, WithReview, ReviewOver;
    ReviewShape(step.reviewView, step.review, step.reviewer, file);
  }

  lemma {:induction false} ReviewsKeepRest(file: Option<File>, steps: seq<Step>)
    requires Tidy(file) && file.Some? && file.value.Read?
    requires forall i :: 0 <= i < |steps| ==> steps[i].ReviewStep?
    ensures Tidy(Run(file, steps))
    ensures var after := Run(file, steps);
            after.Some? && after.value.Read? &&
              after.value.record == file.value.record.(reviews := after.value.record.reviews)
    decreases |steps|
  {
    if steps != [] {
      StepTidy(file, steps[0]);
      ReviewKeepsRest(file, steps[0]);
      ReviewsKeepRest(Apply(file, steps[0]).1, steps[1..]);
    }
  }

  /**
   A successful attest repeats as a success that writes nothing, after any reviews by anyone, on
   another commit, and whatever record the repeated call names, even the one that was replaced.
   */
  lemma AttestReplays(view: View, input: AttestInput, party: Party, file: Option<File>, reviews: seq<Step>,
                      again: AttestInput, commit: Option<string>)
    requires Tidy(file) && AttestOver(view, input, party, file).0.Done?
    requires forall i :: 0 <= i < |reviews| ==> reviews[i].ReviewStep?
    requires again == input.(readSet := again.readSet) && (again.readSet.Some? ==> !view.readStale)
    ensures var after := Run(AttestOver(view, input, party, file).1, reviews);
            AttestOver(view.(commit := commit), again, party, after) == (Done(false), after)
  {
    var first := AttestOver(view, input, party, file).1;
    StepTidy(file, AttestStep(view, input, party));
    AttestLeaves(view, input, party, file);
    ReviewsKeepRest(first, reviews);
    assert Check(Drafted(view.(commit := commit), again, party));
    hide AttestOver, Check, Canonical, Valid, AttestsTheSame, Surviving, Run;
    var stored := Run(first, reviews).value.record;
    AttestedAlready(view.(commit := commit), again, party, stored);
  }

  /** A record without what an attest may find changed: its reviews and its commit. */
  function Bare(record: Record): Record {
    record.(reviews := [], commit := None)
  }

  function Anew(view: View, input: AttestInput, party: Party): Record {
    var drafted := Drafted(view, input, party);
    drafted.(facts := Canonical(drafted.facts))
  }

  /** A successful attest leaves a record that holds just what it attests. */
  lemma AttestLeaves(view: View, input: AttestInput, party: Party, file: Option<File>)
    requires AttestOver(view, input, party, file).0.Done?
    ensures view.admitted && Check(Drafted(view, input, party))
    ensures var after := AttestOver(view, input, party, file).1;
            after.Some? && after.value.Read? && Bare(after.value.record) == Bare(Anew(view, input, party))
  {
    hide Check, Canonical, AttestsTheSame, Surviving;
  }

  /** Attesting what a record already holds writes nothing. */
  lemma AttestedAlready(view: View, input: AttestInput, party: Party, stored: Record)
    requires Valid(stored) && view.admitted && (input.readSet.Some? ==> !view.readStale)
    requires Check(Drafted(view, input, party))
    requires Bare(stored) == Bare(Anew(view, input, party))
    ensures AttestOver(view, input, party, Some(Read(stored))) == (Done(false), Some(Read(stored)))
  {
    var record := Anew(view, input, party);
    SameDigests(stored, record);
    AllAlike(stored, record);
    hide Check, Canonical, Surviving, Digests, Valid, ReviewedAsRecorded;
    assert AttestsTheSame(stored, record);
  }

  lemma SameDigests(a: Record, b: Record)
    requires a.regions == b.regions
    ensures Digests(a) == Digests(b)
  {
  }

  lemma {:induction false} EarlierOnly(reviews: seq<Review>, review: Review, at: nat)
    requires at < |reviews| && SameParty(reviews[at].party, review.party) &&
             Sorted(reviews[at].digests) == Sorted(review.digests)
    requires forall i :: 0 <= i < at ==> !SameParty(reviews[i].party, reviews[at].party)
    ensures EarlierBy(reviews, review) == at
  {
    var found := EarlierBy(reviews, review);
    if found < at { assert SameParty(reviews[found].party, reviews[at].party); }
  }

  /** A review already stored is recorded again without a write, whatever record the call names. */
  lemma StoredReviewReplays(view: View, input: ReviewInput, party: Party, file: Option<File>)
    requires Tidy(file) && view.known && file.Some? && file.value.Read? && !Stale(view, file.value.record)
    requires Digests(file.value.record) == Sorted(DigestsOf(view.regions))
    requires MadeReview(file.value.record, input, party) in file.value.record.reviews
    ensures ReviewOver(view, input, party, file) == (Done(false), file)
  {
    PutAgain(file.value.record, input, party);
    hide Valid, WithReview, Sorted, DigestsOf, MadeReview, Fits;
  }

  lemma PutAgain(record: Record, input: ReviewInput, party: Party)
    requires Valid(record) && MadeReview(record, input, party) in record.reviews
    ensures WithReview(record, input, party) == record
  {
    PutIn(record, input, party);
    hide Sorted, DigestsOf, Digests, Check, WithReview, MadeReview;
    var review := MadeReview(record, input, party);
    var at :| 0 <= at < |record.reviews| && record.reviews[at] == review;
    EarlierOnly(record.reviews, review, at);
    assert record.reviews[at := review] == record.reviews;
  }

  /** A review by another party leaves this one where it is. */
  lemma OtherReviewKeeps(file: Option<File>, step: Step, review: Review)
    requires Tidy(file) && step.ReviewStep? && review in ReviewsIn(file) && !SameParty(step.reviewer, review.party)
    ensures review in ReviewsIn(Apply(file, step).1)
  {
    OtherKept(file.value.record, step.review, step.reviewer, review);
    hide Check, WithReview, SameParty, Valid, Digests;
  }

  lemma OtherKept(record: Record, input: ReviewInput, party: Party, review: Review)
    requires Valid(record) && review in record.reviews && !SameParty(party, review.party)
    ensures review in WithReview(record, input, party).reviews
  {
    PutIn(record, input, party);
    MadeBy(record, input, party);
    hide Sorted, DigestsOf, Check, Digests, MadeReview, WithReview;
    var made := MadeReview(record, input, party);
    var i :| 0 <= i < |record.reviews| && record.reviews[i] == review;
    assert EarlierBy(record.reviews, made) != i;
    assert Put(record.reviews, made)[i] == review;
  }

  lemma MadeBy(record: Record, input: ReviewInput, party: Party)
    ensures MadeReview(record, input, party).party == party
  {
  }

  lemma {:induction false} OtherReviewsKeep(file: Option<File>, steps: seq<Step>, review: Review)
    requires Tidy(file) && file.Some? && file.value.Read? && review in ReviewsIn(file)
    requires forall i :: 0 <= i < |steps| ==> steps[i].ReviewStep? && !SameParty(steps[i].reviewer, review.party)
    ensures review in ReviewsIn(Run(file, steps))
    decreases |steps|
  {
    if steps != [] {
      StepTidy(file, steps[0]);
      ReviewKeepsRest(file, steps[0]);
      OtherReviewKeeps(file, steps[0], review);
      OtherReviewsKeep(Apply(file, steps[0]).1, steps[1..], review);
    }
  }

  /** A successful review repeats as a success that writes nothing, after any reviews by other parties. */
  lemma ReviewReplays(view: View, input: ReviewInput, party: Party, file: Option<File>, others: seq<Step>,
      again: ReviewInput)
    requires Tidy(file) && ReviewOver(view, input, party, file).0.Done?
    requires forall i :: 0 <= i < |others| ==> others[i].ReviewStep? && !SameParty(others[i].reviewer, party)
    requires again == input.(record := again.record)
    ensures var after := Run(ReviewOver(view, input, party, file).1, others);
            ReviewOver(view, again, party, after) == (Done(false), after)
  {
    var first := ReviewOver(view, input, party, file).1;
    StepTidy(file, ReviewStep(view, input, party));
    ReviewLeaves(view, input, party, file);
    var review := MadeReview(first.value.record, input, party);
    ReviewsKeepRest(first, others);
    OtherReviewsKeep(first, others, review) by { MadeBy(first.value.record, input, party); }
    SameMade(first.value.record, Run(first, others).value.record, input, again, party);
    hide ReviewOver, Run, Valid, Digests, Sorted, DigestsOf, MadeReview, SameParty;
    StoredReviewReplays(view, again, party, Run(first, others));
  }

  /** A successful review leaves the record but for its reviews, of which it is one. */
  lemma ReviewLeaves(view: View, input: ReviewInput, party: Party, file: Option<File>)
    requires Tidy(file) && ReviewOver(view, input, party, file).0.Done?
    ensures var first := ReviewOver(view, input, party, file).1;
            view.known && first.Some? && first.value.Read? && !Stale(view, first.value.record) &&
            Digests(first.value.record) == Sorted(DigestsOf(view.regions)) &&
            MadeReview(first.value.record, input, party) in first.value.record.reviews
  {
    var record := WithReview(file.value.record, input, party);
    ReviewIsIn(file.value.record, input, party);
    SameMade(file.value.record, record, input, input, party);
    hide Valid, Check, WithReview, Sorted, DigestsOf, MadeReview, Digests;
    assert ReviewOver(view, input, party, file).1 == Some(Read(record));
  }

  /** The review made of a record depends on its regions alone. */
  lemma SameMade(a: Record, b: Record, input: ReviewInput, again: ReviewInput, party: Party)
    requires a.regions == b.regions && again == input.(record := again.record)
    ensures MadeReview(a, input, party) == MadeReview(b, again, party) && Digests(a) == Digests(b)
  {
  }

  lemma ReviewIsIn(record: Record, input: ReviewInput, party: Party)
    ensures MadeReview(record, input, party) in WithReview(record, input, party).reviews
  {
    var review := MadeReview(record, input, party);
    var bound := Rebind(record, record.regions);
    assert Put(bound.reviews, review)[EarlierBy(bound.reviews, review)] == review;
  }

  /** Whether a review confirms one thing a record carries, at the current digests. */
  predicate Confirms(review: Review, record: Record, target: Target, current: seq<Digest>) {
    var own := exists i :: 0 <= i < |review.items| && review.items[i].target == target;
    var dispute :=
      exists i :: 0 <= i < |review.items| && review.items[i].target == target && review.items[i].verdict.Disputed?;
    var verdict := if !own then review.verdict else if dispute then Disputed else Confirmed;
    Sorted(review.digests) == current && !SameParty(review.party, record.party) && review.party.kind != Checker &&
      verdict.Confirmed?
  }

  /**
   A stored review counts only while the code has not drifted: it confirms nothing as soon as the
   multiset of digests differs from the record's, and so does no review when the attester is its party.
   */
  lemma ConfirmsWithoutDrift(record: Record, review: Review, target: Target, current: seq<Region>)
    requires Valid(record) && review in record.reviews
    ensures Confirms(review, record, target, Sorted(DigestsOf(current))) ==>
              Bag(current) == Bag(record.regions) && !SameParty(review.party, record.party)
    ensures Bag(current) == Bag(record.regions) ==>
              (Confirms(review, record, target, Sorted(DigestsOf(current))) <==>
               Confirms(review, record, target, Sorted(review.digests)))
  {
    SortedIsMultiset(DigestsOf(current), DigestsOf(record.regions));
    var i :| 0 <= i < |record.reviews| && record.reviews[i] == review;
    assert ReviewedAsRecorded(record, record.reviews[i]);
  }
}
