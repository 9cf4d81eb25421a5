/**
 What residuals are for: an edit inside a region changes that region, and no region around or beside
 it; and the markers' own lines are part of no residual.
 */
module Locality {
  import opened Common
  import opened Text
  import opened Marker
  import opened Scan
  import opened Nesting
  import opened RegionTree

  /** Replaces the body of the pair that begins at line `b` of a document starting at line `at`. */
  function Edit(d: Doc, at: nat, b: nat, inside: Doc): Doc
    decreases d
  {
    match d
    case Nil => Nil
    case Line(text, rest) => Line(text, Edit(rest, at + 1, b, inside))
    case Pair(begin, key, body, end, rest) =>
      if b <= at then Pair(begin, key, inside, end, rest)
      else if b < EndLine(body, at) then Pair(begin, key, Edit(body, at + 1, b, inside), end, rest)
      else Pair(begin, key, body, end, Edit(rest, EndLine(body, at) + 1, b, inside))
  }

  /** Where a line from the end of a region on moves when the region's inside becomes `count` lines. */
  function Shift(first: nat, last: nat, count: nat, n: nat): nat
    requires first < last
  {
    if n < last then n else n - last + (first + count + 1)
  }

  function ShiftRegion(first: nat, last: nat, count: nat, r: Region): Region
    requires first < last
  {
    r.(first := Shift(first, last, count, r.first), last := Shift(first, last, count, r.last))
  }

  /** The same regions, keys and residuals, at the lines an edit moves them to. */
  function Shifted(regions: seq<Region>, first: nat, last: nat, count: nat): seq<Region>
    requires first < last
  {
    seq(|regions|, i requires 0 <= i < |regions| => ShiftRegion(first, last, count, regions[i]))
  }

  /** The regions other than the one between two lines and those inside it. */
  function Others(regions: seq<Region>, first: nat, last: nat): seq<Region> {
    if regions == [] then [] else
    (if first <= regions[0].first && regions[0].last <= last then [] else [regions[0]]) +
    Others(regions[1..], first, last)
  }

  lemma {:induction false} OthersConcat(a: seq<Region>, b: seq<Region>, first: nat, last: nat)
    ensures Others(a + b, first, last) == Others(a, first, last) + Others(b, first, last)
  {
    if a == [] {
      assert a + b == b;
    } else {
      assert (a + b)[1..] == a[1..] + b;
      OthersConcat(a[1..], b, first, last);
      OthersFirst(a, first, last);
      OthersFirst(a + b, first, last);
      hide Others;
    }
  }

  lemma OthersFirst(regions: seq<Region>, first: nat, last: nat)
    requires regions != []
    ensures Others(regions, first, last) ==
            (if first <= regions[0].first && regions[0].last <= last then [] else [regions[0]]) +
            Others(regions[1..], first, last)
  {
  }

  lemma ShiftedConcat(a: seq<Region>, b: seq<Region>, first: nat, last: nat, count: nat)
    requires first < last
    ensures Shifted(a + b, first, last, count) == Shifted(a, first, last, count) + Shifted(b, first, last, count)
  {
  }

  lemma OneRegion(x: Region, first: nat, last: nat)
    ensures Others([x], first, last) == if first <= x.first && x.last <= last then [] else [x]
  {
    assert [x][1..] == [];
  }

  lemma {:induction false} NoneOther(regions: seq<Region>, first: nat, last: nat)
    requires forall i :: 0 <= i < |regions| ==> first <= regions[i].first && regions[i].last <= last
    ensures Others(regions, first, last) == []
  {
    if regions != [] { NoneOther(regions[1..], first, last); }
  }

  lemma {:induction false} AllOther(regions: seq<Region>, first: nat, last: nat)
    requires forall i :: 0 <= i < |regions| ==> regions[i].first < first || last < regions[i].last
    ensures Others(regions, first, last) == regions
  {
    if regions != [] { AllOther(regions[1..], first, last); }
  }

  /** A document wholly inside the edited region holds no other region. */
  lemma Inside(d: Doc, at: nat, first: nat, last: nat)
    requires first <= at && at + |Flat(d)| <= last + 1
    ensures Others(Listing(d, at), first, last) == []
  {
    forall i | 0 <= i < |Listing(d, at)| ensures first <= Listing(d, at)[i].first && Listing(d, at)[i].last <= last {
      ListingBounds(d, at, i);
    }
    NoneOther(Listing(d, at), first, last);
  }

  /** A document wholly before the edited region is untouched. */
  lemma Before(d: Doc, at: nat, first: nat, last: nat, count: nat)
    requires first < last && at + |Flat(d)| <= first
    ensures Others(Listing(d, at), first, last) == Listing(d, at)
    ensures Shifted(Listing(d, at), first, last, count) == Listing(d, at)
    ensures Others(Listing(d, at), first, first + count + 1) == Listing(d, at)
  {
    var all := Listing(d, at);
    forall i | 0 <= i < |all| ensures all[i].first < first && all[i].last < last {
      ListingBounds(d, at, i);
    }
    AllOther(all, first, last);
    AllOther(all, first, first + count + 1);
  }

  /** A document wholly after the edited region moves as one. */
  lemma Later(d: Doc, at: nat, first: nat, last: nat, count: nat)
    requires first < last < at
    ensures Others(Listing(d, at), first, last) == Listing(d, at)
    ensures var to := Shift(first, last, count, at);
            && Listing(d, to) == Shifted(Listing(d, at), first, last, count)
            && Others(Listing(d, to), first, first + count + 1) == Listing(d, to)
  {
    var all, to := Listing(d, at), Shift(first, last, count, at);
    forall i | 0 <= i < |all| ensures last < all[i].last { ListingBounds(d, at, i); }
    AllOther(all, first, last);
    forall i | 0 <= i < |Listing(d, to)| ensures first + count + 1 < Listing(d, to)[i].last { ListingBounds(d, to, i); }
    AllOther(Listing(d, to), first, first + count + 1);
    Moved(d, at, first, last, count);
  }

  lemma {:induction false} Moved(d: Doc, at: nat, first: nat, last: nat, count: nat)
    requires first < last < at
    ensures Listing(d, Shift(first, last, count, at)) == Shifted(Listing(d, at), first, last, count)
    decreases d
  {
    match d
    case Nil =>
    case Line(_, rest) => Moved(rest, at + 1, first, last, count);
    case Pair(_, key, body, _, rest) =>
      var m := EndLine(body, at);
      Moved(body, at + 1, first, last, count);
      Moved(rest, m + 1, first, last, count);
      hide Listing, Residue, Flat;
      ListingPair(d, at);
      ListingPair(d, Shift(first, last, count, at));
      var head := [Region(key, at, m, Residue(body))];
      ShiftedConcat(head + Listing(body, at + 1), Listing(rest, m + 1), first, last, count);
      ShiftedConcat(head, Listing(body, at + 1), first, last, count);
  }

  /** What a pair nested in a body looks like from outside does not depend on its inside. */
  lemma {:induction false} EditResidue(d: Doc, at: nat, b: nat, inside: Doc)
    ensures Residue(Edit(d, at, b, inside)) == Residue(d)
    decreases d
  {
    match d
    case Nil =>
    case Line(_, rest) => EditResidue(rest, at + 1, b, inside);
    case Pair(_, _, body, _, rest) => EditResidue(rest, EndLine(body, at) + 1, b, inside);
  }

  lemma {:induction false} EditGood(keys: Keys, d: Doc, at: nat, b: nat, inside: Doc)
    requires Good(keys, d) && Good(keys, inside)
    ensures Good(keys, Edit(d, at, b, inside))
    decreases d
  {
    hide MarkOf, Marks;
    match d
    case Nil =>
    case Line(_, rest) => EditGood(keys, rest, at + 1, b, inside);
    case Pair(_, _, body, _, rest) =>
      EditGood(keys, body, at + 1, b, inside);
      EditGood(keys, rest, EndLine(body, at) + 1, b, inside);
  }

  /** Where a region of a document lies: it is the first pair, or in its body, or after it. */
  lemma RegionIn(d: Doc, at: nat, r: Region)
    requires r in Listing(d, at)
    ensures !d.Nil?
    ensures at <= r.first < r.last < at + |Flat(d)|
    ensures d.Line? ==> r in Listing(d.rest, at + 1)
    ensures d.Pair? && r.first == at ==> r == Region(d.key, at, EndLine(d.body, at), Residue(d.body))
    ensures d.Pair? && at < r.first < EndLine(d.body, at) ==>
              r.last < EndLine(d.body, at) && r in Listing(d.body, at + 1)
    ensures d.Pair? && EndLine(d.body, at) <= r.first ==>
              EndLine(d.body, at) < r.first && r in Listing(d.rest, EndLine(d.body, at) + 1)
  {
    var all := Listing(d, at);
    var i :| 0 <= i < |all| && all[i] == r;
    ListingBounds(d, at, i);
    if d.Pair? {
      var n := |Listing(d.body, at + 1)|;
      if 1 <= i <= n { ListingBounds(d.body, at + 1, i - 1); }
      if n < i { ListingBounds(d.rest, EndLine(d.body, at) + 1, i - 1 - n); }
    }
  }

  /** The edited document's lines: those of the document, with new ones inside the region. */
  ghost predicate Spliced(d: Doc, at: nat, r: Region, inside: Doc) {
    && at <= r.first < r.last < at + |Flat(d)|
    && Flat(Edit(d, at, r.first, inside)) ==
       Flat(d)[..r.first - at + 1] + Flat(inside) + Flat(d)[r.last - at..]
  }

  lemma {:induction false} EditFlat(d: Doc, at: nat, r: Region, inside: Doc)
    requires r in Listing(d, at)
    ensures Spliced(d, at, r, inside)
    decreases d
  {
    hide Listing, Flat, Spliced, Edit, Residue;
    RegionIn(d, at, r);
    match d
    case Line(text, rest) =>
      EditFlat(rest, at + 1, r, inside);
      SplicedLine(d, at, r, inside);
    case Pair(begin, key, body, end, rest) =>
      if r.first <= at {
        SplicedHere(d, at, r, inside);
      } else if r.first < EndLine(body, at) {
        EditFlat(body, at + 1, r, inside);
        SplicedBody(d, at, r, inside);
      } else {
        EditFlat(rest, EndLine(body, at) + 1, r, inside);
        SplicedRest(d, at, r, inside);
      }
  }

  lemma SplicedLine(d: Doc, at: nat, r: Region, inside: Doc)
    requires d.Line? && Spliced(d.rest, at + 1, r, inside)
    ensures Spliced(d, at, r, inside)
  {
    hide Flat;
    var edited := Edit(d, at, r.first, inside);
    FlatLine(d);
    FlatLine(edited);
    SplicedFlat(Flat(d), Flat(edited), [d.text], Flat(d.rest), Flat(edited.rest), [], r.first - at, Flat(inside),
      r.last - at - 1,
                r.first - at + 1, r.last - at);
  }

  lemma SplicedHere(d: Doc, at: nat, r: Region, inside: Doc)
    requires d.Pair? && r.first == at && r.last == EndLine(d.body, at)
    ensures Spliced(d, at, r, inside)
  {
    hide Flat;
    FlatPair(d);
    FlatPair(Pair(d.begin, d.key, inside, d.end, d.rest));
    SpliceBody([d.begin], Flat(d.body), [d.end] + Flat(d.rest), Flat(inside));
  }

  lemma SplicedBody(d: Doc, at: nat, r: Region, inside: Doc)
    requires d.Pair? && at < r.first < EndLine(d.body, at) && Spliced(d.body, at + 1, r, inside)
    ensures Spliced(d, at, r, inside)
  {
    hide Flat;
    var edited := Edit(d, at, r.first, inside);
    FlatPair(d);
    FlatPair(edited);
    SplicedFlat(Flat(d), Flat(edited), [d.begin], Flat(d.body), Flat(edited.body), [d.end] + Flat(d.rest),
                r.first - at, Flat(inside), r.last - at - 1, r.first - at + 1, r.last - at);
  }

  lemma SplicedRest(d: Doc, at: nat, r: Region, inside: Doc)
    requires d.Pair? && EndLine(d.body, at) < r.first && Spliced(d.rest, EndLine(d.body, at) + 1, r, inside)
    ensures Spliced(d, at, r, inside)
  {
    hide Flat;
    var m := EndLine(d.body, at);
    var edited := Edit(d, at, r.first, inside);
    FlatAfter(d);
    FlatAfter(edited);
    SplicedFlat(Flat(d), Flat(edited), [d.begin] + Flat(d.body) + [d.end], Flat(d.rest), Flat(edited.rest), [],
                r.first - m, Flat(inside), r.last - m - 1, r.first - at + 1, r.last - at);
  }

  lemma SplicedFlat(flat: seq<string>, edited: seq<string>, a: seq<string>, b: seq<string>, e: seq<string>,
      c: seq<string>,
                    i: nat, inside: seq<string>, j: nat, from: nat, to: nat)
    requires i <= |b| && j <= |b| && e == b[..i] + inside + b[j..]
    requires flat == a + b + c && edited == a + e + c
    requires from == |a| + i && to == |a| + j
    ensures to <= |flat| && from <= |flat| && edited == flat[..from] + inside + flat[to..]
  {
    SpliceInside(a, b, c, i, inside, j);
  }

  lemma FlatLine(d: Doc)
    requires d.Line?
    ensures Flat(d) == [d.text] + Flat(d.rest) + []
  {
  }

  lemma FlatPair(d: Doc)
    requires d.Pair?
    ensures Flat(d) == [d.begin] + Flat(d.body) + ([d.end] + Flat(d.rest))
  {
  }

  lemma FlatAfter(d: Doc)
    requires d.Pair?
    ensures Flat(d) == ([d.begin] + Flat(d.body) + [d.end]) + Flat(d.rest) + []
  {
  }

  lemma SpliceBody(a: seq<string>, b: seq<string>, c: seq<string>, inside: seq<string>)
    ensures a + inside + c == (a + b + c)[..|a|] + inside + (a + b + c)[|a| + |b|..]
  {
  }

  lemma SpliceInside(a: seq<string>, b: seq<string>, c: seq<string>, i: nat, inside: seq<string>, j: nat)
    requires i <= |b| && j <= |b|
    ensures a + (b[..i] + inside + b[j..]) + c == (a + b + c)[..|a| + i] + inside + (a + b + c)[|a| + j..]
  {
    assert (a + b + c)[..|a| + i] == a + b[..i];
    assert (a + b + c)[|a| + j..] == b[j..] + c;
  }

  /** Every region other than the edited one and those inside it keeps its key and residual. */
  ghost predicate Kept(d: Doc, at: nat, r: Region, inside: Doc) {
    var e, n := Edit(d, at, r.first, inside), |Flat(inside)|;
    && r.first < r.last
    && Region(r.key, r.first, r.first + n + 1, Residue(inside)) in Listing(e, at)
    && SameOthers(Listing(d, at), Listing(e, at), r.first, r.last, n)
  }

  /** Outside the edited region the two lists hold the same regions, moved. */
  ghost predicate SameOthers(before: seq<Region>, after: seq<Region>, first: nat, last: nat, count: nat)
    requires first < last
  {
    Others(after, first, first + count + 1) == Shifted(Others(before, first, last), first, last, count)
  }

  lemma {:induction false} EditOthers(d: Doc, at: nat, r: Region, inside: Doc)
    requires r in Listing(d, at)
    ensures Kept(d, at, r, inside)
    decreases d
  {
    hide Kept, Listing, Flat, Edit, Residue;
    RegionIn(d, at, r);
    match d
    case Line(_, rest) =>
      EditOthers(rest, at + 1, r, inside);
      KeptLine(d, at, r, inside);
    case Pair(_, _, body, _, rest) =>
      if r.first <= at {
        EditHere(d, at, r, inside);
      } else if r.first < EndLine(body, at) {
        EditOthers(body, at + 1, r, inside);
        EditInBody(d, at, r, inside);
      } else {
        EditOthers(rest, EndLine(body, at) + 1, r, inside);
        EditInRest(d, at, r, inside);
      }
  }

  lemma KeptLine(d: Doc, at: nat, r: Region, inside: Doc)
    requires d.Line? && Kept(d.rest, at + 1, r, inside)
    ensures Kept(d, at, r, inside)
  {
    hide SameOthers, Residue, Flat;
  }

  lemma EditHere(d: Doc, at: nat, r: Region, inside: Doc)
    requires d.Pair? && r == Region(d.key, at, EndLine(d.body, at), Residue(d.body))
    ensures Kept(d, at, r, inside)
  {
    hide Listing, Residue, Flat, Others, SameOthers;
    var n := |Flat(inside)|;
    var m, to := r.last, at + n + 1;
    var e := Edit(d, at, r.first, inside);
    var made := Region(d.key, at, to, Residue(inside));
    ListingPair(d, at);
    ListingPair(e, at);
    SameHere(r, made, n);
    Inside(d.body, at + 1, at, m);
    Inside(inside, at + 1, at, to);
    SameNone(Listing(d.body, at + 1), Listing(inside, at + 1), at, m, n);
    SameLater(d.rest, m + 1, at, m, n);
    SameThree(Listing(d, at), Listing(e, at), [r], [made], Listing(d.body, at + 1), Listing(inside, at + 1),
              Listing(d.rest, m + 1), Listing(d.rest, to + 1), at, m, n);
    assert Listing(e, at)[0] == made;
  }

  lemma SameHere(r: Region, made: Region, count: nat)
    requires r.first < r.last && made.first == r.first && made.last == r.first + count + 1
    ensures SameOthers([r], [made], r.first, r.last, count)
  {
    OneRegion(r, r.first, r.last);
    OneRegion(made, r.first, r.first + count + 1);
  }

  lemma SameNone(before: seq<Region>, after: seq<Region>, first: nat, last: nat, count: nat)
    requires first < last && Others(before, first, last) == [] && Others(after, first, first + count + 1) == []
    ensures SameOthers(before, after, first, last, count)
  {
  }

  lemma SameLater(d: Doc, at: nat, first: nat, last: nat, count: nat)
    requires first < last < at
    ensures SameOthers(Listing(d, at), Listing(d, Shift(first, last, count, at)), first, last, count)
  {
    Later(d, at, first, last, count);
  }

  lemma SameBefore(d: Doc, at: nat, first: nat, last: nat, count: nat)
    requires first < last && at + |Flat(d)| <= first
    ensures SameOthers(Listing(d, at), Listing(d, at), first, last, count)
  {
    Before(d, at, first, last, count);
  }

  lemma ThreeOthers(a: seq<Region>, b: seq<Region>, c: seq<Region>, first: nat, last: nat)
    ensures Others(a + b + c, first, last) == Others(a, first, last) + Others(b, first, last) + Others(c, first, last)
  {
    OthersConcat(a + b, c, first, last);
    OthersConcat(a, b, first, last);
  }

  lemma ThreeShifted(a: seq<Region>, b: seq<Region>, c: seq<Region>, first: nat, last: nat, count: nat)
    requires first < last
    ensures Shifted(a + b + c, first, last, count) ==
            Shifted(a, first, last, count) + Shifted(b, first, last, count) + Shifted(c, first, last, count)
  {
  }

  lemma OneShifted(x: Region, first: nat, last: nat, count: nat)
    requires first < last
    ensures Shifted([x], first, last, count) == [ShiftRegion(first, last, count, x)]
  {
  }

  lemma SameThree(before: seq<Region>, after: seq<Region>, a: seq<Region>, a': seq<Region>,
                  b: seq<Region>, b': seq<Region>, c: seq<Region>, c': seq<Region>, first: nat, last: nat, count: nat)
    requires first < last && before == a + b + c && after == a' + b' + c'
    requires SameOthers(a, a', first, last, count)
    requires SameOthers(b, b', first, last, count)
    requires SameOthers(c, c', first, last, count)
    ensures SameOthers(before, after, first, last, count)
  {
    hide Others, Shifted;
    ThreeOthers(a, b, c, first, last);
    ThreeOthers(a', b', c', first, first + count + 1);
    ThreeShifted(Others(a, first, last), Others(b, first, last), Others(c, first, last), first, last, count);
  }

  /** The head of a pair around, or before, the edited region: its residual does not change. */
  lemma SameHead(x: Region, first: nat, last: nat, count: nat)
    requires first < last && x.first < first && (x.last < first || last < x.last)
    ensures SameOthers([x], [ShiftRegion(first, last, count, x)], first, last, count)
  {
    OneRegion(x, first, last);
    OneRegion(ShiftRegion(first, last, count, x), first, first + count + 1);
    OneShifted(x, first, last, count);
  }

  /** The pair around the edited region keeps its residual. */
  lemma EditInBody(d: Doc, at: nat, r: Region, inside: Doc)
    requires d.Pair? && at < r.first < r.last < EndLine(d.body, at) && r in Listing(d.body, at + 1)
    requires Kept(d.body, at + 1, r, inside)
    ensures Kept(d, at, r, inside)
  {
    hide SameOthers, Listing, Residue, Flat;
    var n, m := |Flat(inside)|, EndLine(d.body, at);
    var e := Edit(d, at, r.first, inside);
    var m' := EndLine(e.body, at);
    BodyLength(d.body, at + 1, r, inside);
    EditResidue(d.body, at + 1, r.first, inside);
    var head := Region(d.key, at, m, Residue(d.body));
    ListingPair(d, at);
    ListingPair(e, at);
    SameHead(head, r.first, r.last, n);
    SameLater(d.rest, m + 1, r.first, r.last, n);
    SameThree(Listing(d, at), Listing(e, at), [head], [Region(d.key, at, m', Residue(e.body))],
              Listing(d.body, at + 1), Listing(e.body, at + 1),
              Listing(d.rest, m + 1), Listing(d.rest, m' + 1), r.first, r.last, n);
  }

  lemma BodyLength(d: Doc, at: nat, r: Region, inside: Doc)
    requires r in Listing(d, at)
    ensures at <= r.first < r.last < at + |Flat(d)|
    ensures |Flat(Edit(d, at, r.first, inside))| == |Flat(d)| - (r.last - r.first - 1) + |Flat(inside)|
  {
    hide Listing, Flat;
    EditFlat(d, at, r, inside);
  }

  /** A pair before the edited region is untouched. */
  lemma EditInRest(d: Doc, at: nat, r: Region, inside: Doc)
    requires d.Pair? && EndLine(d.body, at) < r.first < r.last && r in Listing(d.rest, EndLine(d.body, at) + 1)
    requires Kept(d.rest, EndLine(d.body, at) + 1, r, inside)
    ensures Kept(d, at, r, inside)
  {
    hide SameOthers, Listing, Residue, Flat;
    var n, m := |Flat(inside)|, EndLine(d.body, at);
    var e := Edit(d, at, r.first, inside);
    var head := Region(d.key, at, m, Residue(d.body));
    ListingPair(d, at);
    ListingPair(e, at);
    SameHead(head, r.first, r.last, n);
    SameBefore(d.body, at + 1, r.first, r.last, n);
    SameThree(Listing(d, at), Listing(e, at), [head], [head], Listing(d.body, at + 1), Listing(d.body, at + 1),
              Listing(d.rest, m + 1), Listing(e.rest, m + 1), r.first, r.last, n);
  }

  /** The file with the lines strictly inside a region replaced. */
  function Replaced(lines: seq<string>, r: Region, inside: seq<string>): seq<string>
    requires 1 <= r.first < r.last <= |lines|
  {
    lines[..r.first] + inside + lines[r.last - 1..]
  }

  /**
   Residuals are local. Replace the lines strictly inside a region by any that have no scan error of
   their own: the file still has none, the region stays where it begins, and every region other than
   it and those that were inside it keeps its key and its residual, moved down as far as the lines are.
   */
  lemma EditIsLocal(keys: Keys, lines: seq<string>, r: Region, inside: seq<string>)
    requires r in Regions(keys, lines) && Errors(keys, inside) == []
    ensures 1 <= r.first < r.last <= |lines|
    ensures var edited := Replaced(lines, r, inside);
            var to := r.first + |inside| + 1;
            && Errors(keys, edited) == []
            && (exists x :: x in Regions(keys, edited) && x.key == r.key && x.first == r.first && x.last == to)
            && Others(Regions(keys, edited), r.first, to)
               == Shifted(Others(Regions(keys, lines), r.first, r.last), r.first, r.last, |inside|)
  {
    hide Run, MarkOf, Others, Shifted, Listing, Good, Flat, Edit, Residue, SortRegions, Errors;
    var d := CleanFile(keys, lines);
    var f := CleanFile(keys, inside);
    RegionsOfFile(keys, d);
    EditGood(keys, d, 1, r.first, f);
    EditFlat(d, 1, r, f);
    EditOthers(d, 1, r, f);
    var e := Edit(d, 1, r.first, f);
    assert Flat(e) == Replaced(lines, r, inside);
    RegionsOfFile(keys, e);
    GoodFile(keys, e);
  }

  predicate Unmarked(lines: seq<string>) {
    forall i :: 0 <= i < |lines| ==> MarkOf(lines[i]) == None
  }

  /** Lines with no marker have no scan error, so they may replace any region's inside. */
  lemma UnmarkedIsClean(keys: Keys, lines: seq<string>)
    requires Unmarked(lines)
    ensures Errors(keys, lines) == []
  {
    NoMarks(keys, START, 1, lines);
  }

  /** Other text on a marker's line, as long as it reads as the same marker. */
  predicate Remarked(line: string, other: string) {
    line == other || (MarkOf(line).Some? && MarkOf(line) == MarkOf(other))
  }

  /** The document with its lines replaced one for one. */
  function Redraw(d: Doc, lines: seq<string>): Doc
    requires |lines| == |Flat(d)|
    decreases d
  {
    match d
    case Nil => Nil
    case Line(_, rest) => Line(lines[0], Redraw(rest, lines[1..]))
    case Pair(_, key, body, _, rest) =>
      var n := |Flat(body)|;
      Pair(lines[0], key, Redraw(body, lines[1..1 + n]), lines[1 + n], Redraw(rest, lines[2 + n..]))
  }

  ghost predicate Alike(a: seq<string>, b: seq<string>) {
    |a| == |b| && forall i :: 0 <= i < |a| ==> Remarked(a[i], b[i])
  }

  lemma AlikeParts(a: seq<string>, b: seq<string>, i: nat, j: nat)
    requires Alike(a, b) && i <= j <= |a|
    ensures Alike(a[i..j], b[i..j])
  {
    forall k | 0 <= k < j - i ensures Remarked(a[i..j][k], b[i..j][k]) { assert Remarked(a[i + k], b[i + k]); }
  }

  lemma AlikeLine(d: Doc, lines: seq<string>)
    requires d.Line? && Alike(Flat(d), lines)
    ensures |lines| == |Flat(d)| > 0 && Remarked(d.text, lines[0]) && Alike(Flat(d.rest), lines[1..])
  {
    FlatLine(d);
    AlikeParts(Flat(d), lines, 1, |lines|);
    assert Flat(d)[1..|lines|] == Flat(d.rest) && lines[1..|lines|] == lines[1..];
    assert Remarked(Flat(d)[0], lines[0]);
  }

  lemma AlikePair(d: Doc, lines: seq<string>)
    requires d.Pair? && Alike(Flat(d), lines)
    ensures var n := |Flat(d.body)|;
            && |lines| == |Flat(d)| == 2 + n + |Flat(d.rest)|
            && Remarked(d.begin, lines[0]) && Alike(Flat(d.body), lines[1..1 + n])
            && Remarked(d.end, lines[1 + n]) && Alike(Flat(d.rest), lines[2 + n..])
  {
    var n := |Flat(d.body)|;
    FlatAfter(d);
    hide Flat;
    assert Flat(d)[0] == d.begin && Flat(d)[1 + n] == d.end;
    assert Remarked(Flat(d)[0], lines[0]) && Remarked(Flat(d)[1 + n], lines[1 + n]);
    AlikeParts(Flat(d), lines, 1, 1 + n);
    AlikeParts(Flat(d), lines, 2 + n, |lines|);
    assert Flat(d)[1..1 + n] == Flat(d.body) && Flat(d)[2 + n..|lines|] == Flat(d.rest);
    assert lines[2 + n..|lines|] == lines[2 + n..];
  }

  lemma {:induction false} RedrawSame(keys: Keys, d: Doc, lines: seq<string>)
    requires Good(keys, d) && Alike(Flat(d), lines)
    ensures |lines| == |Flat(d)|
    ensures Good(keys, Redraw(d, lines)) && Flat(Redraw(d, lines)) == lines
    ensures Residue(Redraw(d, lines)) == Residue(d)
    decreases d
  {
    hide MarkOf, Alike;
    match d
    case Nil => AlikeLength(Flat(d), lines);
    case Line(text, rest) =>
      AlikeLine(d, lines);
      RedrawSame(keys, rest, lines[1..]);
    case Pair(begin, key, body, end, rest) =>
      var n := |Flat(body)|;
      AlikePair(d, lines);
      RedrawSame(keys, body, lines[1..1 + n]);
      RedrawSame(keys, rest, lines[2 + n..]);
      hide Flat, Residue;
      ResiduePair(d, 0);
      ResiduePair(Redraw(d, lines), 0);
      FlatAfter(Redraw(d, lines));
      Rejoin(lines, n);
  }

  lemma Rejoin(lines: seq<string>, n: nat)
    requires 2 + n <= |lines|
    ensures lines == ([lines[0]] + lines[1..1 + n] + [lines[1 + n]]) + lines[2 + n..] + []
  {
  }

  lemma AlikeLength(a: seq<string>, b: seq<string>)
    requires Alike(a, b)
    ensures |a| == |b|
  {
  }

  lemma {:induction false} RedrawListing(keys: Keys, d: Doc, lines: seq<string>, at: nat)
    requires Good(keys, d) && Alike(Flat(d), lines)
    ensures |lines| == |Flat(d)| && Listing(Redraw(d, lines), at) == Listing(d, at)
    decreases d
  {
    hide MarkOf, Marks, Alike, Remarked, Residue;
    match d
    case Nil => AlikeLength(Flat(d), lines);
    case Line(text, rest) =>
      AlikeLine(d, lines);
      RedrawListing(keys, rest, lines[1..], at + 1);
    case Pair(begin, key, body, end, rest) =>
      var n := |Flat(body)|;
      AlikePair(d, lines);
      RedrawSame(keys, body, lines[1..1 + n]);
      RedrawListing(keys, body, lines[1..1 + n], at + 1);
      RedrawListing(keys, rest, lines[2 + n..], EndLine(body, at) + 1);
      RedrawPair(d, lines, at);
  }

  lemma RedrawPair(d: Doc, lines: seq<string>, at: nat)
    requires d.Pair? && |lines| == |Flat(d)|
    requires var n := |Flat(d.body)|;
             var body, rest := Redraw(d.body, lines[1..1 + n]), Redraw(d.rest, lines[2 + n..]);
             && |Flat(body)| == n && Residue(body) == Residue(d.body)
             && Listing(body, at + 1) == Listing(d.body, at + 1)
             && Listing(rest, EndLine(d.body, at) + 1) == Listing(d.rest, EndLine(d.body, at) + 1)
    ensures Listing(Redraw(d, lines), at) == Listing(d, at)
  {
    hide Listing, Residue, Flat;
    ListingPair(d, at);
    ListingPair(Redraw(d, lines), at);
  }

  /**
   Markers are part of no residual: rewriting marker lines, by another indentation or comment style,
   so that each still reads as the same marker changes no region, line or residual, and no error.
   */
  lemma MarkersAreNoContent(keys: Keys, lines: seq<string>, other: seq<string>)
    requires Alike(lines, other)
    ensures Errors(keys, other) == Errors(keys, lines)
    ensures Regions(keys, other) == Regions(keys, lines)
  {
    hide MarkOf;
    SameRun(keys, START, 1, lines, other);
    if Errors(keys, lines) == [] {
      var d := CleanFile(keys, lines);
      RedrawSame(keys, d, other);
      RedrawListing(keys, d, other, 1);
      RegionsOfFile(keys, d);
      RegionsOfFile(keys, Redraw(d, other));
    }
  }

  /** The same lines, but that a marker's may be indented otherwise. */
  ghost predicate Reindented(a: seq<string>, b: seq<string>) {
    && |a| == |b|
    && forall i :: 0 <= i < |a| ==> a[i] == b[i] || (MarkOf(a[i]).Some? && TrimStart(a[i]) == TrimStart(b[i]))
  }

  /** Indenting marker lines otherwise, whatever is on them, changes no region, line, residual or error. */
  lemma IndentationIsNoContent(keys: Keys, lines: seq<string>, other: seq<string>)
    requires Reindented(lines, other)
    ensures Errors(keys, other) == Errors(keys, lines)
    ensures Regions(keys, other) == Regions(keys, lines)
  {
    hide MarkOf, TrimStart, Errors, Regions;
    forall i | 0 <= i < |lines| ensures Remarked(lines[i], other[i]) {
      if lines[i] != other[i] { SameMark(lines[i], other[i]); }
    }
    MarkersAreNoContent(keys, lines, other);
  }

  lemma {:induction false} SameRun(keys: Keys, s: State, n: nat, lines: seq<string>, other: seq<string>)
    requires Alike(lines, other)
    ensures Run(keys, s, n, lines) == Run(keys, s, n, other)
    decreases |lines|
  {
    hide MarkOf, Judge, EndAt;
    if lines != [] {
      assert Remarked(lines[0], other[0]);
      AlikeParts(lines, other, 1, |lines|);
      assert lines[1..|lines|] == lines[1..] && other[1..|lines|] == other[1..];
      SameRun(keys, Step(keys, s, n, lines[0]), n + 1, lines[1..], other[1..]);
    }
  }
}
