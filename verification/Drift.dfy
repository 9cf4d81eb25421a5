/**
 Drift: whether a declaration's regions are still those its record was attested for, compared by
 digest as multisets.
 */
module Drift {

  // A digest by its place in the digest order.
  type Digest = nat

  datatype Region = Region(path: string, first: nat, last: nat, digest: Digest)

  function DigestsOf(regions: seq<Region>): seq<Digest> {
    if regions == [] then [] else DigestsOf(regions[..|regions| - 1]) + [regions[|regions| - 1].digest]
  }

  function Bag(regions: seq<Region>): multiset<Digest> {
    multiset(DigestsOf(regions))
  }

  lemma {:induction false} DigestsConcat(a: seq<Region>, b: seq<Region>)
    ensures DigestsOf(a + b) == DigestsOf(a) + DigestsOf(b)
  {
    if b == [] {
      assert a + b == a;
    } else {
      assert (a + b)[..|a + b| - 1] == a + b[..|b| - 1];
      DigestsConcat(a, b[..|b| - 1]);
    }
  }

  lemma BagPush(a: seq<Region>, x: Region)
    ensures Bag(a + [x]) == Bag(a) + multiset{x.digest}
  {
    assert (a + [x])[..|a|] == a;
  }

  lemma BagRemove(a: seq<Region>, i: nat)
    requires i < |a|
    ensures Bag(a) == Bag(a[..i] + a[i + 1..]) + multiset{a[i].digest}
  {
    assert a == a[..i] + [a[i]] + a[i + 1..];
    DigestsConcat(a[..i] + [a[i]], a[i + 1..]);
    DigestsConcat(a[..i], [a[i]]);
    DigestsConcat(a[..i], a[i + 1..]);
    assert [a[i]][..0] == [];
  }

  lemma {:induction false} InBag(a: seq<Region>, digest: Digest)
    ensures digest in Bag(a) <==> exists i :: 0 <= i < |a| && a[i].digest == digest
  {
    if a != [] {
      var n := |a| - 1;
      InBag(a[..n], digest);
      assert a == a[..n] + [a[n]];
      BagPush(a[..n], a[n]);
      if exists i :: 0 <= i < |a| && a[i].digest == digest {
        var i :| 0 <= i < |a| && a[i].digest == digest;
        if i < n { assert a[..n][i].digest == digest; }
      }
    }
  }

  /** The first region with a digest. */
  method Position(regions: seq<Region>, digest: Digest) returns (at: nat)
    ensures at <= |regions|
    ensures at < |regions| ==> regions[at].digest == digest
    ensures forall i :: 0 <= i < at ==> regions[i].digest != digest
  {
    at := 0;
    while at < |regions| && regions[at].digest != digest
      invariant at <= |regions| && forall i :: 0 <= i < at ==> regions[i].digest != digest
    {
      at := at + 1;
    }
  }

  /**
   The current regions no recorded one matches, and the recorded ones no current one matches: the two
   multiset differences of the digests, whatever the order and however often a digest repeats.
   */
  method Drift(recorded: seq<Region>, current: seq<Region>) returns (added: seq<Region>, removed: seq<Region>)
    ensures Bag(added) == Bag(current) - Bag(recorded)
    ensures Bag(removed) == Bag(recorded) - Bag(current)
    ensures forall r :: r in added ==> r in current
    ensures forall r :: r in removed ==> r in recorded
    ensures added == [] && removed == [] <==> Bag(current) == Bag(recorded)
  {
    hide Bag;
    removed, added := recorded, [];
    StartBags(recorded);
    assert current[..0] == [];
    for i := 0 to |current|
      invariant Bag(added) == Bag(current[..i]) - Bag(recorded)
      invariant Bag(removed) == Bag(recorded) - Bag(current[..i])
      invariant forall r :: r in added ==> r in current
      invariant forall r :: r in removed ==> r in recorded
    {
      var x := current[i];
      assert current[..i + 1] == current[..i] + [x];
      BagPush(current[..i], x);
      BagStep(Bag(recorded), Bag(current[..i]), x.digest);
      InBag(removed, x.digest);
      var position := Position(removed, x.digest);
      if position < |removed| {
        BagRemove(removed, position);
        WithoutOne(Bag(removed), Bag(removed[..position] + removed[position + 1..]), x.digest);
        removed := removed[..position] + removed[position + 1..];
      } else {
        BagPush(added, x);
        added := added + [x];
      }
    }
    assert current[..|current|] == current;
    EmptyBag(added);
    EmptyBag(removed);
    NoDifference(Bag(current), Bag(recorded));
  }

  lemma StartBags(recorded: seq<Region>)
    ensures Bag([]) == Bag([]) - Bag(recorded) && Bag(recorded) == Bag(recorded) - Bag([])
  {
  }

  lemma BagStep(recorded: multiset<Digest>, current: multiset<Digest>, x: Digest)
    ensures x in recorded - current ==>
              (current + multiset{x}) - recorded == current - recorded &&
              recorded - (current + multiset{x}) == (recorded - current) - multiset{x}
    ensures x !in recorded - current ==>
              (current + multiset{x}) - recorded == (current - recorded) + multiset{x} &&
              recorded - (current + multiset{x}) == recorded - current
  {
  }

  lemma WithoutOne(all: multiset<Digest>, rest: multiset<Digest>, x: Digest)
    requires all == rest + multiset{x}
    ensures rest == all - multiset{x}
  {
  }

  lemma {:induction false} DigestsLength(a: seq<Region>)
    ensures |DigestsOf(a)| == |a|
  {
    if a != [] { DigestsLength(a[..|a| - 1]); }
  }

  lemma EmptyBag(a: seq<Region>)
    ensures a == [] <==> Bag(a) == multiset{}
  {
    DigestsLength(a);
    assert |Bag(a)| == |DigestsOf(a)|;
  }

  lemma NoDifference(a: multiset<Digest>, b: multiset<Digest>)
    ensures a - b == multiset{} && b - a == multiset{} <==> a == b
  {
    if a - b == multiset{} && b - a == multiset{} {
      forall x ensures a[x] == b[x] {
        assert (a - b)[x] == 0 && (b - a)[x] == 0;
      }
    }
  }

  function Insert(digests: seq<Digest>, x: Digest): seq<Digest> {
    if digests == [] || x <= digests[0] then [x] + digests else [digests[0]] + Insert(digests[1..], x)
  }

  /** A list of digests, sorted: a multiset, as a review compares them. */
  function Sorted(digests: seq<Digest>): seq<Digest> {
    if digests == [] then [] else Insert(Sorted(digests[1..]), digests[0])
  }

  ghost predicate Ascends(digests: seq<Digest>) {
    forall i, j :: 0 <= i < j < |digests| ==> digests[i] <= digests[j]
  }

  lemma FirstApart(s: seq<Digest>)
    requires s != []
    ensures multiset(s) == multiset{s[0]} + multiset(s[1..])
  {
    assert s == [s[0]] + s[1..];
  }

  lemma MembersOf(s: seq<Digest>, bag: multiset<Digest>)
    requires multiset(s) == bag
    ensures forall i :: 0 <= i < |s| ==> s[i] in bag
    ensures forall x :: x in bag ==> x in s
  {
    forall i | 0 <= i < |s| ensures s[i] in bag { assert s[i] in multiset(s); }
    forall x | x in bag ensures x in s { assert x in multiset(s); }
  }

  lemma PutFirst(x: Digest, rest: seq<Digest>)
    requires Ascends(rest) && forall i :: 0 <= i < |rest| ==> x <= rest[i]
    ensures Ascends([x] + rest)
  {
  }

  lemma {:induction false} InsertAscends(digests: seq<Digest>, x: Digest)
    requires Ascends(digests)
    ensures Ascends(Insert(digests, x)) && multiset(Insert(digests, x)) == multiset([x] + digests)
  {
    if digests != [] && digests[0] < x {
      var rest := Insert(digests[1..], x);
      InsertAscends(digests[1..], x);
      MembersOf(rest, multiset([x] + digests[1..]));
      LeastOf(digests, x, rest);
      hide Ascends;
      PutFirst(digests[0], rest);
      SwapFirst(x, digests[0], digests[1..], rest);
      assert digests == [digests[0]] + digests[1..];
    } else {
      AllAbove(digests, x);
      PutFirst(x, digests);
    }
  }

  lemma AllAbove(digests: seq<Digest>, x: Digest)
    requires Ascends(digests) && (digests == [] || x <= digests[0])
    ensures forall i :: 0 <= i < |digests| ==> x <= digests[i]
  {
  }

  lemma LeastOf(digests: seq<Digest>, x: Digest, rest: seq<Digest>)
    requires Ascends(digests) && digests != [] && digests[0] < x
    requires forall i :: 0 <= i < |rest| ==> rest[i] in multiset([x] + digests[1..])
    ensures forall i :: 0 <= i < |rest| ==> digests[0] <= rest[i]
  {
    forall i | 0 <= i < |rest| ensures digests[0] <= rest[i] {
      var k :| 0 <= k < |[x] + digests[1..]| && ([x] + digests[1..])[k] == rest[i];
    }
  }

  lemma SwapFirst(x: Digest, y: Digest, tail: seq<Digest>, rest: seq<Digest>)
    requires multiset(rest) == multiset([x] + tail)
    ensures multiset([y] + rest) == multiset([x] + ([y] + tail))
  {
  }

  lemma PutAlike(x: Digest, a: seq<Digest>, b: seq<Digest>)
    requires multiset(a) == multiset(b)
    ensures multiset([x] + a) == multiset([x] + b)
  {
  }

  lemma {:induction false} SortedAscends(digests: seq<Digest>)
    ensures Ascends(Sorted(digests)) && multiset(Sorted(digests)) == multiset(digests)
  {
    if digests != [] {
      SortedAscends(digests[1..]);
      InsertAscends(Sorted(digests[1..]), digests[0]);
      PutAlike(digests[0], Sorted(digests[1..]), digests[1..]);
      assert digests == [digests[0]] + digests[1..];
    }
  }

  lemma SameFirst(a: seq<Digest>, b: seq<Digest>)
    requires Ascends(a) && Ascends(b) && multiset(a) == multiset(b) && a != [] && b != []
    ensures a[0] == b[0]
  {
    MembersOf(a, multiset(b));
    MembersOf(b, multiset(a));
    AllAbove(a, a[0]);
    AllAbove(b, b[0]);
    var i :| 0 <= i < |b| && b[i] == a[0];
    var j :| 0 <= j < |a| && a[j] == b[0];
  }

  lemma SameRest(a: seq<Digest>, b: seq<Digest>)
    requires multiset(a) == multiset(b) && a != [] && b != [] && a[0] == b[0]
    ensures multiset(a[1..]) == multiset(b[1..])
  {
    FirstApart(a);
    FirstApart(b);
    assert multiset(a[1..]) == multiset(a) - multiset{a[0]};
  }

  lemma SameEmpty(a: seq<Digest>, b: seq<Digest>)
    requires multiset(a) == multiset(b)
    ensures a == [] <==> b == []
  {
    assert |multiset(a)| == |a| && |multiset(b)| == |b|;
  }

  lemma {:induction false} AscendingOnce(a: seq<Digest>, b: seq<Digest>)
    requires Ascends(a) && Ascends(b) && multiset(a) == multiset(b)
    ensures a == b
  {
    SameEmpty(a, b);
    if a != [] {
      SameFirst(a, b);
      SameRest(a, b);
      AscendingOnce(a[1..], b[1..]);
      assert a == [a[0]] + a[1..] && b == [b[0]] + b[1..];
    }
  }

  /** Sorted lists are equal exactly when the multisets are. */
  lemma SortedIsMultiset(a: seq<Digest>, b: seq<Digest>)
    ensures Sorted(a) == Sorted(b) <==> multiset(a) == multiset(b)
  {
    SortedAscends(a);
    SortedAscends(b);
    if multiset(a) == multiset(b) { AscendingOnce(Sorted(a), Sorted(b)); }
  }
}
