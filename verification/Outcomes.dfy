/**
 What an attest and a review come to, told of the input and the file found: the first check that fails
 and leaves the file alone, that the record holds it all already, or just what the new record holds.
 */
module Outcomes {
  import opened Common
  import opened CallGraph
  import SortDedup
  import opened Drift
  import opened Records

  /** What the format asks of an attest: no fact twice, each with evidence, by a party with a name. */
  predicate WellFormed(input: AttestInput, party: Party) {
    && (forall i, j :: 0 <= i < j < |input.facts| ==> input.facts[i].fact != input.facts[j].fact)
    && (forall i :: 0 <= i < |input.facts| ==> |input.facts[i].evidence| > 0)
    && |party.name| > 0 && (party.job.Some? ==> |party.job.value| > 0)
  }

  /** One attested fact under its canonical form: its spans as a set, in order. */
  ghost predicate SameFact(held: Attested, stated: Attested) {
    && held.fact == stated.fact
    && (forall i, j :: 0 <= i < j < |held.evidence| ==> held.evidence[i] < held.evidence[j])
    && (forall span :: span in held.evidence <==> span in stated.evidence)
  }

  /** Whether a record holds just what is attested, in canonical form, whatever its commit and reviews. */
  ghost predicate Attests(record: Record, view: View, input: AttestInput, party: Party) {
    && record.residual == view.residual && record.regions == view.regions && record.realization == view.realization
    && record.structural == input.structural && record.claims == input.claims && record.party == party
    && (forall i, j :: 0 <= i < j < |record.facts| ==> record.facts[i].fact < record.facts[j].fact)
    && (forall x :: x in record.facts <==> Stated(input.facts, x))
  }

  ghost predicate Stated(facts: seq<Attested>, x: Attested) {
    exists y :: y in facts && SameFact(x, y)
  }

  lemma SomeIn<T>(a: seq<T>, b: seq<T>)
    requires a != [] && forall x :: x in a ==> x in b
    ensures b != []
  {
    assert a[0] in b;
  }

  /** Two canonical lists with the same facts are one. */
  lemma {:induction false} SameFacts(a: seq<Attested>, b: seq<Attested>)
    requires Ordered(a) && Ordered(b) && forall x :: x in a <==> x in b
    ensures a == b
  {
    if b != [] { SomeIn(b, a); }
    if a != [] {
      SomeIn(a, b);
      var n, m := |a| - 1, |b| - 1;
      assert a[n] in b && b[|b| - 1] in a;
      LastSame(a, b);
      forall x ensures x in a[..n] <==> x in b[..m] {
        FrontApart(a, x);
        FrontApart(b, x);
      }
      SameFacts(a[..n], b[..m]);
      assert a == a[..n] + [a[n]] && b == b[..m] + [b[m]];
    }
  }

  lemma LastSame(a: seq<Attested>, b: seq<Attested>)
    requires Ordered(a) && Ordered(b) && a != [] && b != [] && a[|a| - 1] in b && b[|b| - 1] in a
    ensures a[|a| - 1] == b[|b| - 1]
  {
    var i :| 0 <= i < |b| && b[i] == a[|a| - 1];
    var j :| 0 <= j < |a| && a[j] == b[|b| - 1];
    if i < |b| - 1 { assert b[i].fact < b[|b| - 1].fact; }
    if j < |a| - 1 { assert a[j].fact < a[|a| - 1].fact; }
  }

  lemma FrontApart(a: seq<Attested>, x: Attested)
    requires Ordered(a) && a != []
    ensures x in a[..|a| - 1] <==> x in a && x != a[|a| - 1]
  {
    assert a == a[..|a| - 1] + [a[|a| - 1]];
  }

  /** The canonical form holds just the facts stated. */
  lemma {:induction false} CanonicalStates(facts: seq<Attested>, x: Attested)
    ensures x in Canonical(facts) <==> Stated(facts, x)
  {
    if facts != [] {
      var n := |facts| - 1;
      var last := facts[n].(evidence := Ascending(set s | s in facts[n].evidence));
      CanonicalStates(facts[..n], x);
      InsertHolds(Canonical(facts[..n]), last, x);
      StatedPush(facts, x);
      SameSpans(x, facts[n]);
    }
  }

  lemma StatedPush(facts: seq<Attested>, x: Attested)
    requires facts != []
    ensures Stated(facts, x) <==> Stated(facts[..|facts| - 1], x) || SameFact(x, facts[|facts| - 1])
  {
    hide SameFact;
    assert facts == facts[..|facts| - 1] + [facts[|facts| - 1]];
    if SameFact(x, facts[|facts| - 1]) { assert facts[|facts| - 1] in facts; }
  }

  lemma SameSpans(x: Attested, y: Attested)
    ensures SameFact(x, y) <==> x == y.(evidence := Ascending(set s | s in y.evidence))
  {
    var spans := Ascending(set s | s in y.evidence);
    assert forall s :: s in spans <==> s in y.evidence;
    if SameFact(x, y) { SameAscending(x.evidence, spans); }
  }

  lemma SameAscending(a: seq<nat>, b: seq<nat>)
    requires forall i, j :: 0 <= i < j < |a| ==> a[i] < a[j]
    requires forall i, j :: 0 <= i < j < |b| ==> b[i] < b[j]
    requires forall x :: x in a <==> x in b
    ensures a == b
  {
    KeysOrdered();
    SortDedup.StrictOnce(KeyLess, a, b);
  }

  lemma {:induction false} InsertHolds(facts: seq<Attested>, x: Attested, y: Attested)
    ensures y in InsertFact(facts, x) <==> y in facts || y == x
  {
    if facts != [] && x.fact < facts[|facts| - 1].fact {
      InsertHolds(facts[..|facts| - 1], x, y);
      assert facts == facts[..|facts| - 1] + [facts[|facts| - 1]];
    }
  }

  lemma DraftChecks(view: View, input: AttestInput, party: Party)
    ensures Check(Drafted(view, input, party)) <==> WellFormed(input, party)
  {
  }

  /** A record is the one an attest makes, up to its commit and reviews, exactly when it attests the same. */
  lemma AttestsIs(record: Record, view: View, input: AttestInput, party: Party)
    requires WellFormed(input, party)
    ensures Bare(record) == Bare(Anew(view, input, party)) <==> Attests(record, view, input, party)
  {
    DraftChecks(view, input, party);
    CanonicalOrder(input.facts);
    var facts := Canonical(input.facts);
    hide Stated, Canonical;
    forall x ensures x in facts <==> Stated(input.facts, x) { CanonicalStates(input.facts, x); }
    if Attests(record, view, input, party) { SameFacts(record.facts, facts); }
  }

  /** Whether an attest passes every check before the file is looked at. */
  predicate Passes(view: View, input: AttestInput, party: Party) {
    view.admitted && WellFormed(input, party) && (input.readSet.Some? ==> !view.readStale)
  }

  ghost predicate HeldAlready(view: View, input: AttestInput, party: Party, file: Option<File>) {
    file.Some? && file.value.Read? && Attests(file.value.record, view, input, party)
  }

  /** The first check that an attest fails, or none. */
  ghost predicate AttestExplains(view: View, input: AttestInput, party: Party, file: Option<File>, outcome: Outcome) {
    if !view.admitted then outcome == NotAdmitted
    else if !WellFormed(input, party) then outcome == Malformed
    else if input.readSet.Some? && view.readStale then outcome == StaleRead
    else if HeldAlready(view, input, party, file) then outcome == Done(false)
    else if input.readSet.Some? && input.readSet.value != file then outcome == RecordChanged
    else outcome == Done(true)
  }

  /**
   An attest is refused by the first check that fails and then changes nothing. It changes the file only
   when it passes them all over the file the caller names, and leaves there just what is attested.
   */
  lemma AttestJudged(view: View, input: AttestInput, party: Party, file: Option<File>)
    requires Tidy(file)
    ensures var (outcome, after) := AttestOver(view, input, party, file);
            AttestExplains(view, input, party, file, outcome) &&
            (outcome != Done(true) ==> after == file) &&
            (outcome == Done(true) ==>
               after.Some? && after.value.Read? && Attests(after.value.record, view, input, party) &&
               after.value.record.commit == view.commit)
  {
    DraftChecks(view, input, party);
    if view.admitted && WellFormed(input, party) && (input.readSet.Some? ==> !view.readStale) {
      AttestsIs(Settled(view, input, party, file), view, input, party);
      assert Check(Settled(view, input, party, file)) by { SettledValid(view, input, party, file); }
      if file.Some? && file.value.Read? {
        AttestsIs(file.value.record, view, input, party);
        HeldIff(view, input, party, file.value.record);
      }
      hide Attests, Check, Settled, WellFormed, Canonical, Tidy;
      SettledBare(view, input, party, file);
    }
    hide Attests, Check, Settled, WellFormed, Canonical;
  }

  lemma SettledBare(view: View, input: AttestInput, party: Party, file: Option<File>)
    ensures Bare(Settled(view, input, party, file)) == Bare(Anew(view, input, party))
    ensures Settled(view, input, party, file).commit == view.commit
  {
    hide Canonical, AttestsTheSame, Surviving;
  }

  lemma HeldIff(view: View, input: AttestInput, party: Party, previous: Record)
    requires Valid(previous)
    ensures SameButCommit(previous, Settled(view, input, party, Some(Read(previous)))) <==>
            Bare(previous) == Bare(Anew(view, input, party))
  {
    var settled := Settled(view, input, party, Some(Read(previous)));
    SettledBare(view, input, party, Some(Read(previous)));
    if Bare(previous) == Bare(Anew(view, input, party)) {
      SameDigests(previous, Anew(view, input, party));
      AllAlike(previous, Anew(view, input, party));
    }
    hide Canonical, Surviving, Digests, ReviewedAsRecorded, Check;
  }

  /** Whether two records say the same of the same code; neither evidence nor places are compared. */
  predicate SaysTheSame(a: Record, b: Record) {
    && a.residual == b.residual && a.structural == b.structural && a.realization == b.realization
    && |a.facts| == |b.facts| && (forall i :: 0 <= i < |a.facts| ==> a.facts[i].fact == b.facts[i].fact)
    && a.claims == b.claims
    && Bag(a.regions) == Bag(b.regions)
  }

  /** The record written keeps the reviews of one that says the same, all of them, and else none. */
  lemma AttestReviews(view: View, input: AttestInput, party: Party, file: Option<File>)
    requires Tidy(file) && AttestOver(view, input, party, file).0 == Done(true)
    ensures var record := AttestOver(view, input, party, file).1.value.record;
            record.reviews == if file.Some? && file.value.Read? && SaysTheSame(file.value.record, record)
                              then file.value.record.reviews else []
  {
    var record := Settled(view, input, party, file);
    assert AttestOver(view, input, party, file).1 == Some(Read(record)) by {
      hide Check, Settled, Drafted, SameButCommit;
    }
    SettledBare(view, input, party, file);
    if file.Some? && file.value.Read? {
      var previous, anew := file.value.record, Anew(view, input, party);
      SaysIs(previous, anew);
      if AttestsTheSame(previous, anew) { AllAlike(previous, anew); }
      hide AttestsTheSame, Valid;
    }
    hide Canonical, AttestOver, ReviewedAsRecorded, Check, Drafted;
  }

  lemma SaysIs(a: Record, b: Record)
    ensures AttestsTheSame(a, b) <==> SaysTheSame(a, b)
  {
    NamesMatch(a.facts, b.facts);
    SortedIsMultiset(DigestsOf(a.regions), DigestsOf(b.regions));
    hide Sorted, DigestsOf, FactNames;
  }

  /** What the format asks of a review of a record: a named party, and items that name what it has. */
  predicate WellAimed(record: Record, input: ReviewInput, party: Party) {
    && |party.name| > 0 && (party.job.Some? ==> |party.job.value| > 0)
    && forall k :: 0 <= k < |input.items| ==>
         match input.items[k].target
         case FactAt(index) => index < |record.facts|
         case ClaimAt(index) => index < |record.claims|
         case Structure => true
  }

  /** Whether a record already holds a party's review, with this verdict, these items and the record's digests. */
  predicate ReviewedAlready(record: Record, input: ReviewInput, party: Party) {
    exists i :: 0 <= i < |record.reviews| && Matches(record.reviews[i], record, input, party)
  }

  predicate Matches(review: Review, record: Record, input: ReviewInput, party: Party) {
    && review.party == party && review.verdict == input.verdict && review.items == input.items
    && review.digests == Digests(record)
  }

  /** The first check that a review fails, or none. */
  predicate ReviewExplains(view: View, input: ReviewInput, party: Party, file: Option<File>, outcome: Outcome) {
    if !view.known then outcome == NotAdmitted
    else if file.None? || !file.value.Read? then outcome == NoRecord
    else
      var record := file.value.record;
      if Bag(record.regions) != Bag(view.regions) then outcome == DriftedCode
      else if record.residual != view.residual || record.realization != view.realization then outcome == StaleSpec
      else if !WellAimed(record, input, party) then outcome == Malformed
      else if ReviewedAlready(record, input, party) then outcome == Done(false)
      else if input.record.Some? && input.record != file then outcome == RecordChanged
      else outcome == Done(true)
  }

  /** Reviews after one is put in: in the place of the one by the same party, or last. */
  predicate ReviewPut(before: seq<Review>, after: seq<Review>, review: Review) {
    if exists i :: 0 <= i < |before| && SameParty(before[i].party, review.party) then
      && |after| == |before|
      && forall i :: 0 <= i < |before| ==>
           after[i] == if before[i].party.kind == review.party.kind && before[i].party.name == review.party.name
                       then review else before[i]
    else after == before + [review]
  }

  /** A review is refused by the first check that fails, and else changes the reviews alone, by the one made. */
  lemma ReviewJudged(view: View, input: ReviewInput, party: Party, file: Option<File>)
    requires Tidy(file)
    ensures var (outcome, after) := ReviewOver(view, input, party, file);
            ReviewExplains(view, input, party, file, outcome) &&
            (outcome != Done(true) ==> after == file) &&
            (outcome == Done(true) ==>
               after.Some? && after.value.Read? &&
               after.value.record == file.value.record.(reviews := after.value.record.reviews) &&
               ReviewPut(file.value.record.reviews, after.value.record.reviews,
                 Review(party, Digests(file.value.record), input.verdict, input.items)))
  {
    hide Tidy, Valid, WithReview, Check, WellAimed, ReviewedAlready, ReviewPut, Sorted, DigestsOf, Digests;
    if file.Some? && file.value.Read? {
      var record := file.value.record;
      TidyRecord(file);
      DriftIs(record, view);
      ReviewMade(record, input, party);
      ReviewChecks(record, input, party);
      ReviewHeld(record, input, party);
    }
  }

  lemma TidyRecord(file: Option<File>)
    requires Tidy(file) && file.Some? && file.value.Read?
    ensures Valid(file.value.record)
  {
  }

  lemma DriftIs(record: Record, view: View)
    ensures Digests(record) == Sorted(DigestsOf(view.regions)) <==> Bag(record.regions) == Bag(view.regions)
  {
    SortedIsMultiset(DigestsOf(record.regions), DigestsOf(view.regions));
  }

  lemma ReviewMade(record: Record, input: ReviewInput, party: Party)
    requires Valid(record)
    ensures var after := WithReview(record, input, party);
            after == record.(reviews := after.reviews) &&
            ReviewPut(record.reviews, after.reviews, Review(party, Digests(record), input.verdict, input.items))
  {
    PutIn(record, input, party);
    DigestsSorted(record);
    var review := MadeReview(record, input, party);
    hide Sorted, DigestsOf, Check, WithReview, Digests;
    var at := EarlierBy(record.reviews, review);
    forall i | 0 <= i < |record.reviews| ensures ReviewedAsRecorded(record, record.reviews[i]) {}
    if at < |record.reviews| {
      forall i | 0 <= i < |record.reviews| && i != at
        ensures !SameParty(record.reviews[i].party, review.party)
      {
        OneParty(record, i, at, review.party);
      }
    }
  }

  lemma OneParty(record: Record, i: nat, j: nat, party: Party)
    requires Valid(record) && i < |record.reviews| && j < |record.reviews| && i != j
    requires SameParty(record.reviews[j].party, party)
    ensures !SameParty(record.reviews[i].party, party)
  {
    hide Check, ReviewedAsRecorded, Ordered;
    assert if i < j then !SameParty(record.reviews[i].party, record.reviews[j].party)
           else !SameParty(record.reviews[j].party, record.reviews[i].party);
  }

  lemma ReviewChecks(record: Record, input: ReviewInput, party: Party)
    requires Valid(record)
    ensures Check(WithReview(record, input, party)) <==> WellAimed(record, input, party)
  {
    PutIn(record, input, party);
    hide WithReview, Sorted, DigestsOf, Digests, ReviewedAsRecorded;
    var review := MadeReview(record, input, party);
    var after := record.(reviews := Put(record.reviews, review));
    var at := EarlierBy(record.reviews, review);
    assert after.reviews[at] == review;
    assert Fits(after, review) <==> WellAimed(record, input, party);
    forall i | 0 <= i < |after.reviews| && i != at ensures Fits(after, after.reviews[i]) {
      assert Fits(record, record.reviews[i]);
    }
  }

  lemma ReviewHeld(record: Record, input: ReviewInput, party: Party)
    requires Valid(record)
    ensures WithReview(record, input, party) == record <==> ReviewedAlready(record, input, party)
  {
    PutIn(record, input, party);
    hide Sorted, DigestsOf, Check, WithReview, ReviewedAsRecorded;
    var review := MadeReview(record, input, party);
    var at := EarlierBy(record.reviews, review);
    if ReviewedAlready(record, input, party) {
      PutAgain(record, input, party);
    } else {
      assert Put(record.reviews, review)[at] == review;
      assert at < |record.reviews| ==> !Matches(record.reviews[at], record, input, party);
    }
  }

  /** Which verdict of a review counts for one thing a record carries: that of its items on it, if any. */
  lemma ItemsDecide(review: Review, record: Record, target: Target, current: seq<Digest>)
    ensures Confirms(review, record, target, current) <==>
            && multiset(review.digests) == multiset(current) && Sorted(current) == current
            && (review.party.kind != record.party.kind || review.party.name != record.party.name)
            && review.party.kind != Checker
            && !(exists i :: 0 <= i < |review.items| && review.items[i] == Item(target, Disputed, review.items[i].note))
            && (review.verdict == Confirmed ||
                exists i :: 0 <= i < |review.items| && review.items[i] == Item(target, Confirmed, review.items[i].note))
  {
    SortedIsMultiset(review.digests, current);
    SortedAscends(review.digests);
    SortedIsMultiset(Sorted(review.digests), review.digests);
    hide Sorted;
    forall i | 0 <= i < |review.items|
      ensures review.items[i].target == target && review.items[i].verdict.Disputed? <==>
              review.items[i] == Item(target, Disputed, review.items[i].note)
      ensures review.items[i].target == target && review.items[i].verdict.Confirmed? <==>
              review.items[i] == Item(target, Confirmed, review.items[i].note)
    {
    }
  }
}
