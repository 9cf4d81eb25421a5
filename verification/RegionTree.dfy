/**
 The regions of a file that nests: one for each pair of its document, in line order, each with its
 residual read off the tree.
 */
module RegionTree {
  import opened Common
  import opened Text
  import opened Marker
  import opened Scan
  import opened Nesting

  /** A pair's own lines, with each pair nested in it replaced by its key. */
  function Residue(d: Doc): string {
    match d
    case Nil => ""
    case Line(text, rest) => text + "\n" + Residue(rest)
    case Pair(_, key, _, _, rest) => key + "\n" + Residue(rest)
  }

  /** The regions of a document that starts at line `at`, in line order. */
  function Listing(d: Doc, at: nat): seq<Region>
    decreases d
  {
    match d
    case Nil => []
    case Line(_, rest) => Listing(rest, at + 1)
    case Pair(_, key, body, _, rest) =>
      [Region(key, at, EndLine(body, at), Residue(body))] + Listing(body, at + 1) + Listing(rest, EndLine(body, at) + 1)
  }

  /** `part` is what lines hold from line `at` on. */
  ghost predicate Part(lines: seq<string>, at: nat, part: seq<string>) {
    1 <= at && at - 1 + |part| <= |lines| && lines[at - 1..at - 1 + |part|] == part
  }

  ghost predicate Holds(lines: seq<string>, at: nat, d: Doc) {
    Part(lines, at, Flat(d))
  }

  lemma PartSplit(lines: seq<string>, at: nat, a: seq<string>, b: seq<string>)
    requires Part(lines, at, a + b)
    ensures Part(lines, at, a) && Part(lines, at + |a|, b)
  {
    var all := lines[at - 1..at - 1 + |a + b|];
    assert lines[at - 1..at - 1 + |a|] == all[..|a|];
    assert lines[at - 1 + |a|..at - 1 + |a| + |b|] == all[|a|..];
  }

  lemma HoldsParts(lines: seq<string>, at: nat, d: Doc)
    requires Holds(lines, at, d)
    ensures d.Line? ==> 1 <= at <= |lines| && lines[at - 1] == d.text && Holds(lines, at + 1, d.rest)
    ensures d.Pair? ==> Holds(lines, at + 1, d.body) && Holds(lines, EndLine(d.body, at) + 1, d.rest)
  {
    if d.Line? {
      PartSplit(lines, at, [d.text], Flat(d.rest));
    } else if d.Pair? {
      hide Part;
      PartSplit(lines, at, [d.begin] + Flat(d.body) + [d.end], Flat(d.rest));
      PartSplit(lines, at, [d.begin] + Flat(d.body), [d.end]);
      PartSplit(lines, at, [d.begin], Flat(d.body));
    }
  }

  lemma {:induction false} NestedLater(d: Doc, at: nat)
    ensures NestedOf(d, at) != [] ==> at <= NestedOf(d, at)[0].first
    decreases d
  {
    if d.Line? { NestedLater(d.rest, at + 1); }
  }

  lemma ResidualLine(lines: seq<string>, nested: seq<Nested>, at: nat, last: nat)
    requires 1 <= at < last && at <= |lines| && (nested != [] ==> nested[0].first != at)
    ensures ResidualFrom(lines, nested, at, last) == lines[at - 1] + "\n" + ResidualFrom(lines, nested, at + 1, last)
  {
  }

  lemma ResidualPair(lines: seq<string>, first: Nested, nested: seq<Nested>, at: nat, last: nat)
    requires 1 <= at < last && at <= |lines| && first.first == at <= first.last
    ensures ResidualFrom(lines, [first] + nested, at, last) ==
            first.key + "\n" + ResidualFrom(lines, nested, first.last + 1, last)
  {
    assert ([first] + nested)[1..] == nested;
  }

  lemma FlatLength(d: Doc)
    ensures d.Line? ==> |Flat(d)| == 1 + |Flat(d.rest)|
    ensures d.Pair? ==> |Flat(d)| == 2 + |Flat(d.body)| + |Flat(d.rest)|
  {
  }

  /** The residual loop over a region's lines reads its residue. */
  lemma {:induction false} ResidualOfDoc(lines: seq<string>, at: nat, d: Doc)
    requires Holds(lines, at, d)
    ensures ResidualFrom(lines, NestedOf(d, at), at, at + |Flat(d)|) == Residue(d)
    decreases d
  {
    hide Holds, Flat, ResidualFrom;
    HoldsBounds(lines, at, d);
    HoldsParts(lines, at, d);
    FlatLength(d);
    match d
    case Nil => ResidualNone(lines, at);
    case Line(_, rest) =>
      ResidualOfDoc(lines, at + 1, rest);
      NestedLater(rest, at + 1);
      hide Residue, NestedOf;
      ResidueLine(d, at);
      ResidualLine(lines, NestedOf(rest, at + 1), at, at + |Flat(d)|);
    case Pair(_, key, body, _, rest) =>
      var m := EndLine(body, at);
      ResidualOfDoc(lines, m + 1, rest);
      hide Residue, NestedOf;
      ResiduePair(d, at);
      ResidualPair(lines, Nested(key, at, m), NestedOf(rest, m + 1), at, at + |Flat(d)|);
  }

  lemma ResidueLine(d: Doc, at: nat)
    requires d.Line?
    ensures Residue(d) == d.text + "\n" + Residue(d.rest) && NestedOf(d, at) == NestedOf(d.rest, at + 1)
  {
  }

  lemma ResiduePair(d: Doc, at: nat)
    requires d.Pair?
    ensures Residue(d) == d.key + "\n" + Residue(d.rest)
    ensures NestedOf(d, at) == [Nested(d.key, at, EndLine(d.body, at))] + NestedOf(d.rest, EndLine(d.body, at) + 1)
  {
  }

  lemma ListingPair(d: Doc, at: nat)
    requires d.Pair?
    ensures Listing(d, at) == [Region(d.key, at, EndLine(d.body, at), Residue(d.body))] +
                              Listing(d.body, at + 1) + Listing(d.rest, EndLine(d.body, at) + 1)
  {
  }

  lemma HoldsBounds(lines: seq<string>, at: nat, d: Doc)
    requires Holds(lines, at, d)
    ensures 1 <= at && at - 1 + |Flat(d)| <= |lines| && (d.Nil? ==> Flat(d) == [])
  {
  }

  lemma ResidualNone(lines: seq<string>, at: nat)
    ensures ResidualFrom(lines, [], at, at) == ""
  {
  }

  lemma RegionsOfConcat(lines: seq<string>, a: seq<Closed>, b: seq<Closed>)
    ensures RegionsOf(lines, a + b) == RegionsOf(lines, a) + RegionsOf(lines, b)
  {
  }

  lemma Regather<T>(a: seq<T>, b: seq<T>, x: T, c: seq<T>, d: seq<T>)
    requires multiset(a) == multiset(b) && multiset(c) == multiset(d)
    ensures multiset(a + [x] + c) == multiset([x] + b + d)
  {
  }

  /** What a pair adds to the regions: its own, with its residue. */
  lemma PairRegions(lines: seq<string>, at: nat, d: Doc)
    requires Holds(lines, at, d) && d.Pair?
    ensures RegionsOf(lines, ClosedOf(d, at)) ==
            RegionsOf(lines, ClosedOf(d.body, at + 1)) +
            [Region(d.key, at, EndLine(d.body, at), Residue(d.body))] +
            RegionsOf(lines, ClosedOf(d.rest, EndLine(d.body, at) + 1))
  {
    hide ResidualFrom, Residue, Part;
    HoldsParts(lines, at, d);
    ResidualOfDoc(lines, at + 1, d.body);
    var a, c := ClosedOf(d.body, at + 1), ClosedOf(d.rest, EndLine(d.body, at) + 1);
    var closed := Closed(d.key, at, EndLine(d.body, at), NestedOf(d.body, at + 1));
    RegionsOfConcat(lines, a + [closed], c);
    RegionsOfConcat(lines, a, [closed]);
  }

  /** The regions closed are the document's, in another order. */
  lemma {:induction false} SameRegions(lines: seq<string>, at: nat, d: Doc)
    requires Holds(lines, at, d)
    ensures multiset(RegionsOf(lines, ClosedOf(d, at))) == multiset(Listing(d, at))
    decreases d
  {
    hide Residue, Holds, RegionsOf, Flat, NestedOf, EndLine;
    HoldsParts(lines, at, d);
    match d
    case Nil => NoRegions(lines);
    case Line(_, rest) => SameRegions(lines, at + 1, rest);
    case Pair(_, key, body, _, rest) =>
      SameRegions(lines, at + 1, body);
      SameRegions(lines, EndLine(body, at) + 1, rest);
      SamePair(lines, at, d);
  }

  lemma SamePair(lines: seq<string>, at: nat, d: Doc)
    requires Holds(lines, at, d) && d.Pair?
    requires multiset(RegionsOf(lines, ClosedOf(d.body, at + 1))) == multiset(Listing(d.body, at + 1))
    requires var m := EndLine(d.body, at) + 1;
             multiset(RegionsOf(lines, ClosedOf(d.rest, m))) == multiset(Listing(d.rest, m))
    ensures multiset(RegionsOf(lines, ClosedOf(d, at))) == multiset(Listing(d, at))
  {
    hide ClosedOf, RegionsOf, Residue, Holds, Listing, EndLine, Flat;
    PairRegions(lines, at, d);
    ListingPair(d, at);
    var m := EndLine(d.body, at);
    Regather(RegionsOf(lines, ClosedOf(d.body, at + 1)), Listing(d.body, at + 1), Region(d.key, at, m, Residue(d.body)),
             RegionsOf(lines, ClosedOf(d.rest, m + 1)), Listing(d.rest, m + 1));
  }

  lemma NoRegions(lines: seq<string>)
    ensures RegionsOf(lines, []) == []
  {
  }

  /** Within the lines of its document, each region ends after it begins. */
  lemma {:induction false} ListingBounds(d: Doc, at: nat, i: nat)
    requires i < |Listing(d, at)|
    ensures at <= Listing(d, at)[i].first < Listing(d, at)[i].last < at + |Flat(d)|
    decreases d
  {
    match d
    case Line(_, rest) => ListingBounds(rest, at + 1, i);
    case Pair(_, _, body, _, rest) =>
      var n := |Listing(body, at + 1)|;
      if 1 <= i <= n { ListingBounds(body, at + 1, i - 1); }
      if n < i { ListingBounds(rest, EndLine(body, at) + 1, i - 1 - n); }
  }

  /** Of two regions, the later lies after the earlier or strictly inside it. */
  predicate Laminar(a: Region, b: Region) {
    a.first < b.first && (a.last < b.first || b.last < a.last)
  }

  lemma {:induction false} ListingLaminar(d: Doc, at: nat, i: nat, j: nat)
    requires i < j < |Listing(d, at)|
    ensures Laminar(Listing(d, at)[i], Listing(d, at)[j])
    decreases d
  {
    match d
    case Line(_, rest) => ListingLaminar(rest, at + 1, i, j);
    case Pair(_, _, body, _, rest) =>
      var n, m := |Listing(body, at + 1)|, EndLine(body, at) + 1;
      if 1 <= i <= n { ListingBounds(body, at + 1, i - 1); }
      if 1 <= j <= n { ListingBounds(body, at + 1, j - 1); }
      if n < j { ListingBounds(rest, m, j - 1 - n); }
      if 1 <= i && j <= n { ListingLaminar(body, at + 1, i - 1, j - 1); }
      if n < i { ListingLaminar(rest, m, i - 1 - n, j - 1 - n); }
  }

  predicate InOrder(a: Region, b: Region) {
    a.first < b.first || (a.first == b.first && a.last <= b.last)
  }

  ghost predicate Sorted(regions: seq<Region>) {
    forall i, j :: 0 <= i < j < |regions| ==> InOrder(regions[i], regions[j])
  }

  lemma SortedPush(regions: seq<Region>, region: Region)
    requires Sorted(regions) && forall i :: 0 <= i < |regions| ==> InOrder(regions[i], region)
    ensures Sorted(regions + [region])
  {
  }

  lemma MembersOf<T>(a: seq<T>, b: seq<T>)
    requires multiset(a) == multiset(b)
    ensures forall i :: 0 <= i < |a| ==> a[i] in b
  {
    forall i | 0 <= i < |a| ensures a[i] in b { assert a[i] in multiset(b); }
  }

  lemma {:induction false} InsertSorted(regions: seq<Region>, region: Region)
    requires Sorted(regions)
    ensures Sorted(InsertRegion(regions, region))
    ensures multiset(InsertRegion(regions, region)) == multiset(regions + [region])
  {
    if regions != [] && !InOrder(regions[|regions| - 1], region) {
      var rest, last := regions[..|regions| - 1], regions[|regions| - 1];
      InsertSorted(rest, region);
      MembersOf(InsertRegion(rest, region), rest + [region]);
      hide Sorted, InOrder;
      assert forall i :: 0 <= i < |rest| ==> InOrder(rest[i], last) by { SortedLast(regions); }
      assert InOrder(region, last) by { NotInOrder(last, region); }
      forall i | 0 <= i < |InsertRegion(rest, region)| ensures InOrder(InsertRegion(rest, region)[i], last) {
        assert InsertRegion(rest, region)[i] in rest + [region];
      }
      SortedPush(InsertRegion(rest, region), last);
      InsertGather(InsertRegion(rest, region), rest, region, last);
      assert regions == rest + [last];
    } else {
      SortedLast(regions);
      if regions != [] { AllInOrder(regions, region); }
      SortedPush(regions, region);
    }
  }

  lemma InsertGather<T>(inserted: seq<T>, rest: seq<T>, x: T, last: T)
    requires multiset(inserted) == multiset(rest + [x])
    ensures multiset(inserted + [last]) == multiset(rest + [last] + [x])
  {
  }

  lemma NotInOrder(a: Region, b: Region)
    requires !InOrder(a, b)
    ensures InOrder(b, a)
  {
  }

  lemma SortedLast(regions: seq<Region>)
    requires Sorted(regions)
    ensures regions != [] ==> Sorted(regions[..|regions| - 1])
    ensures forall i :: 0 <= i < |regions| - 1 ==> InOrder(regions[i], regions[|regions| - 1])
  {
  }

  lemma AllInOrder(regions: seq<Region>, region: Region)
    requires Sorted(regions) && regions != [] && InOrder(regions[|regions| - 1], region)
    ensures forall i :: 0 <= i < |regions| ==> InOrder(regions[i], region)
  {
    SortedLast(regions);
  }

  lemma {:induction false} SortSorted(regions: seq<Region>)
    ensures Sorted(SortRegions(regions)) && multiset(SortRegions(regions)) == multiset(regions)
  {
    if regions != [] {
      var rest, last := regions[..|regions| - 1], regions[|regions| - 1];
      SortSorted(rest);
      InsertSorted(SortRegions(rest), last);
      hide Sorted;
      assert regions == rest + [last];
      LastAlike(SortRegions(rest), rest, last);
    }
  }

  lemma LastAlike<T>(a: seq<T>, b: seq<T>, x: T)
    requires multiset(a) == multiset(b)
    ensures multiset(a + [x]) == multiset(b + [x])
  {
  }

  lemma DropAlike<T>(a: seq<T>, b: seq<T>)
    requires multiset(a) == multiset(b) && a != [] && b != [] && a[|a| - 1] == b[|b| - 1]
    ensures multiset(a[..|a| - 1]) == multiset(b[..|b| - 1])
  {
    LastApart(a);
    LastApart(b);
    assert multiset(a[..|a| - 1]) == multiset(a) - multiset{a[|a| - 1]};
  }

  lemma SameLength<T>(a: seq<T>, b: seq<T>)
    requires multiset(a) == multiset(b)
    ensures |a| == |b|
  {
    assert |multiset(a)| == |multiset(b)|;
  }

  ghost predicate Strictly(regions: seq<Region>) {
    forall i, j :: 0 <= i < j < |regions| ==> regions[i].first < regions[j].first
  }

  lemma SameLast(a: seq<Region>, b: seq<Region>)
    requires Strictly(a) && Sorted(b) && multiset(a) == multiset(b) && a != [] && b != []
    ensures a[|a| - 1] == b[|b| - 1]
  {
    MembersOf(a, b);
    MembersOf(b, a);
    var i :| 0 <= i < |b| && b[i] == a[|a| - 1];
    var j :| 0 <= j < |a| && a[j] == b[|b| - 1];
    SortedLast(b);
  }

  /** Regions that begin on different lines have one sorted order. */
  lemma {:induction false} SortedOnce(a: seq<Region>, b: seq<Region>)
    requires Strictly(a) && Sorted(b) && multiset(a) == multiset(b)
    ensures a == b
  {
    SameLength(a, b);
    if a != [] {
      SameLast(a, b);
      DropAlike(a, b);
      SortedLast(b);
      SortedOnce(a[..|a| - 1], b[..|b| - 1]);
      assert a == a[..|a| - 1] + [a[|a| - 1]] && b == b[..|b| - 1] + [b[|b| - 1]];
    }
  }

  /** The regions a scan finds in a document's lines are its pairs, in line order. */
  lemma RegionsOfFile(keys: Keys, d: Doc)
    requires Good(keys, d)
    ensures Regions(keys, Flat(d)) == Listing(d, 1)
  {
    GoodFile(keys, d);
    var lines := Flat(d);
    assert lines[0..|lines|] == lines;
    SameRegions(lines, 1, d);
    var regions := RegionsOf(lines, ClosedOf(d, 1));
    SortSorted(regions);
    forall i, j | 0 <= i < j < |Listing(d, 1)| ensures Listing(d, 1)[i].first < Listing(d, 1)[j].first {
      ListingLaminar(d, 1, i, j);
    }
    hide Sorted, Listing;
    SortedOnce(Listing(d, 1), SortRegions(regions));
  }

  /**
   In any file, the regions found come in line order, each ends after it begins, and any two are
   disjoint or strictly nested.
   */
  lemma FileLaminar(keys: Keys, lines: seq<string>)
    ensures var regions := Regions(keys, lines);
            && (forall i :: 0 <= i < |regions| ==> 1 <= regions[i].first < regions[i].last <= |lines|)
            && (forall i, j :: 0 <= i < j < |regions| ==> Laminar(regions[i], regions[j]))
  {
    if Errors(keys, lines) == [] {
      var d := CleanFile(keys, lines);
      RegionsOfFile(keys, d);
      var regions := Listing(d, 1);
      forall i | 0 <= i < |regions| ensures 1 <= regions[i].first < regions[i].last <= |lines| {
        ListingBounds(d, 1, i);
      }
      forall i, j | 0 <= i < j < |regions| ensures Laminar(regions[i], regions[j]) {
        ListingLaminar(d, 1, i, j);
      }
    }
  }
}
