/**
 Completeness claims: where a claim's matches lie.

 A match is a range of a file's bytes; the regular expressions that find it are not modelled. It is
 placed by binary search in the offsets that lines start at, and the claim holds when every match
 lies in an accepted region or an excepted file.
 */
module Completeness {
  import opened Common
  import opened Text

  /** Where each line after a newline starts. */
  function StartsAfter(text: string, at: nat): seq<nat>
    requires at <= |text|
    decreases |text| - at
  {
    if at == |text| then []
    else (if text[at] == '\n' then [at + 1] else []) + StartsAfter(text, at + 1)
  }

  /** The offset each line of a text starts at. */
  function LineStarts(text: string): seq<nat> {
    [0] + StartsAfter(text, 0)
  }

  /** How many newlines precede an offset. */
  function NewlinesBefore(text: string, offset: nat): nat
    requires offset <= |text|
  {
    if offset == 0 then 0 else NewlinesBefore(text, offset - 1) + if text[offset - 1] == '\n' then 1 else 0
  }

  /** The 1-based line of an offset, following how lines are split. */
  function LineAt(text: string, offset: nat): nat
    requires offset < |text|
    decreases |text|
  {
    var end := Newline(text);
    if offset <= end then 1 else 1 + LineAt(text[end + 1..], offset - end - 1)
  }

  /** The offset a line starts at. */
  function StartOf(text: string, line: nat): nat
    decreases |text|
  {
    var end := Newline(text);
    if line <= 1 || end == |text| then 0 else end + 1 + StartOf(text[end + 1..], line - 1)
  }

  ghost predicate Ascends(starts: seq<nat>) {
    forall i, j :: 0 <= i < j < |starts| ==> starts[i] < starts[j]
  }

  /** How many starts are at or before an offset, by binary search. */
  method PartitionPoint(starts: seq<nat>, offset: nat) returns (count: nat)
    requires Ascends(starts)
    ensures count <= |starts|
    ensures forall i :: 0 <= i < count ==> starts[i] <= offset
    ensures forall i :: count <= i < |starts| ==> offset < starts[i]
  {
    var low, high := 0, |starts|;
    while low < high
      invariant 0 <= low <= high <= |starts|
      invariant forall i :: 0 <= i < low ==> starts[i] <= offset
      invariant forall i :: high <= i < |starts| ==> offset < starts[i]
    {
      var mid := low + (high - low) / 2;
      if starts[mid] <= offset { low := mid + 1; } else { high := mid; }
    }
    count := low;
  }

  /** The starts after a place: one past each newline from there on. */
  lemma {:induction false} StartsAscend(text: string, at: nat)
    requires at <= |text|
    ensures forall i :: 0 <= i < |StartsAfter(text, at)| ==> at < StartsAfter(text, at)[i]
    ensures Ascends(StartsAfter(text, at))
    decreases |text| - at
  {
    if at < |text| { StartsAscend(text, at + 1); }
  }

  /** The starts at or before an offset are as many as the newlines before it. */
  lemma {:induction false} StartsCounted(text: string, at: nat, offset: nat)
    requires at <= offset <= |text|
    ensures NewlinesBefore(text, at) <= NewlinesBefore(text, offset)
    ensures var starts, n := StartsAfter(text, at), NewlinesBefore(text, offset) - NewlinesBefore(text, at);
            && n <= |starts|
            && (forall i :: 0 <= i < n ==> starts[i] <= offset)
            && (forall i :: n <= i < |starts| ==> offset < starts[i])
    decreases |text| - at
  {
    if at < offset {
      StartsCounted(text, at + 1, offset);
    } else {
      StartsAscend(text, at);
    }
  }

  lemma {:induction false} NewlinesSplit(text: string, cut: nat, offset: nat)
    requires cut + offset <= |text|
    ensures NewlinesBefore(text, cut + offset) == NewlinesBefore(text, cut) + NewlinesBefore(text[cut..], offset)
  {
    if offset > 0 {
      NewlinesSplit(text, cut, offset - 1);
      assert text[cut..][offset - 1] == text[cut + offset - 1];
    }
  }

  lemma {:induction false} NoNewlines(text: string, offset: nat)
    requires offset <= Newline(text)
    ensures NewlinesBefore(text, offset) == 0
  {
    if offset > 0 { NoNewlines(text, offset - 1); }
  }

  /** A line's number is one more than the newlines before it. */
  lemma {:induction false} LineCountsNewlines(text: string, offset: nat)
    requires offset < |text|
    ensures LineAt(text, offset) == 1 + NewlinesBefore(text, offset)
    decreases |text|
  {
    var end := Newline(text);
    if offset <= end {
      NoNewlines(text, offset);
    } else {
      LineCountsNewlines(text[end + 1..], offset - end - 1);
      NewlinesSplit(text, end + 1, offset - end - 1);
      NoNewlines(text, end);
    }
  }

  /** The byte at an offset is its line's: in its text, or in its ending. */
  ghost predicate HoldsByte(text: string, offset: nat, lines: seq<string>, line: nat, start: nat)
    requires offset < |text|
  {
    && 1 <= line <= |lines| && start <= offset
    && (if offset - start < |lines[line - 1]| then lines[line - 1][offset - start] == text[offset]
        else text[offset] == '\n' || (text[offset] == '\r' && offset + 1 < |text| && text[offset + 1] == '\n'))
  }

  lemma {:induction false} LineHolds(text: string, offset: nat)
    requires offset < |text|
    ensures HoldsByte(text, offset, Lines(text), LineAt(text, offset), StartOf(text, LineAt(text, offset)))
    decreases |text|
  {
    hide Lines, LineAt, StartOf;
    var end := Newline(text);
    if offset <= end {
      FirstLine(text, offset);
      FirstLineHolds(text, offset);
    } else {
      var rest := text[end + 1..];
      LineHolds(rest, offset - end - 1);
      var line := LineAt(rest, offset - end - 1);
      LaterLine(text, offset);
      HoldsLater(text, offset, end, Lines(rest), line, StartOf(rest, line), StripReturn(text[..end]));
    }
  }

  lemma LaterLine(text: string, offset: nat)
    requires Newline(text) < offset < |text|
    ensures var rest := text[Newline(text) + 1..];
            var line := LineAt(rest, offset - Newline(text) - 1);
            && LineAt(text, offset) == 1 + line
            && StartOf(text, 1 + line) == Newline(text) + 1 + StartOf(rest, line)
            && Lines(text) == [StripReturn(text[..Newline(text)])] + Lines(rest)
  {
  }

  lemma FirstLine(text: string, offset: nat)
    requires offset < |text| && offset <= Newline(text)
    ensures LineAt(text, offset) == 1 && StartOf(text, 1) == 0
    ensures Lines(text) != []
    ensures Lines(text)[0] == if Newline(text) < |text| then StripReturn(text[..Newline(text)]) else text
  {
  }

  lemma Stripped(line: string)
    ensures var s := StripReturn(line);
            s <= line && |line| <= |s| + 1 && (|s| < |line| ==> line[|s|] == '\r')
  {
  }

  lemma FirstLineHolds(text: string, offset: nat)
    requires offset < |text| && offset <= Newline(text)
    ensures HoldsByte(text, offset, Lines(text), 1, 0)
  {
    hide Lines, StripReturn;
    FirstLine(text, offset);
    Stripped(text[..Newline(text)]);
  }

  lemma HoldsLater(text: string, offset: nat, end: nat, lines: seq<string>, line: nat, start: nat, first: string)
    requires end < offset < |text|
    requires HoldsByte(text[end + 1..], offset - end - 1, lines, line, start)
    ensures HoldsByte(text, offset, [first] + lines, 1 + line, end + 1 + start)
  {
  }

  /** A place that parts the starts at an offset is the only one. */
  lemma PartOnce(starts: seq<nat>, offset: nat, a: nat, b: nat)
    requires a <= |starts| && (forall i :: 0 <= i < a ==> starts[i] <= offset)
    requires forall i :: a <= i < |starts| ==> offset < starts[i]
    requires b <= |starts| && (forall i :: 0 <= i < b ==> starts[i] <= offset)
    requires forall i :: b <= i < |starts| ==> offset < starts[i]
    ensures a == b
  {
    assert a < |starts| ==> (starts[a] <= offset <==> a < b);
    assert b < |starts| ==> (starts[b] <= offset <==> b < a);
  }

  lemma LineParts(text: string, offset: nat)
    requires offset < |text|
    ensures Ascends(LineStarts(text))
    ensures var starts, line := LineStarts(text), LineAt(text, offset);
            && line <= |starts|
            && (forall i :: 0 <= i < line ==> starts[i] <= offset)
            && (forall i :: line <= i < |starts| ==> offset < starts[i])
  {
    StartsAscend(text, 0);
    StartsCounted(text, 0, offset);
    LineCountsNewlines(text, offset);
    var starts, after := LineStarts(text), StartsAfter(text, 0);
    assert forall i :: 0 < i < |starts| ==> starts[i] == after[i - 1];
  }

  /** The source's line number of an offset is the line that splitting the text puts it on. */
  method LineNumber(text: string, starts: seq<nat>, offset: nat) returns (line: nat)
    requires offset < |text| && starts == LineStarts(text)
    ensures line == LineAt(text, offset)
  {
    LineParts(text, offset);
    line := PartitionPoint(starts, offset);
    PartOnce(starts, offset, line, LineAt(text, offset));
  }

  /** The source's iterator over a text's bytes. */
  method FindStarts(text: string) returns (starts: seq<nat>)
    ensures starts == LineStarts(text)
  {
    starts := [0];
    for offset := 0 to |text|
      invariant starts + StartsAfter(text, offset) == LineStarts(text)
    {
      if text[offset] == '\n' { starts := starts + [offset + 1]; }
    }
  }

  datatype Match = Match(path: string, first: nat, last: nat)

  datatype Bytes = Bytes(from: nat, to: nat)

  predicate InText(text: string, found: seq<Bytes>) {
    forall i :: 0 <= i < |found| ==> found[i].from <= found[i].to <= |text|
  }

  function MatchOf(path: string, text: string, found: Bytes): Match
    requires found.from < found.to <= |text|
  {
    Match(path, LineAt(text, found.from), LineAt(text, found.to - 1))
  }

  /** What the ranges found in a file match: an empty range touches no line, and is passed over. */
  function MatchesOf(path: string, text: string, found: seq<Bytes>): set<Match>
    requires InText(text, found)
  {
    set i | 0 <= i < |found| && found[i].from < found[i].to :: MatchOf(path, text, found[i])
  }

  /** Places every range a claim's patterns found; the starts are computed for the first one. */
  method Visit(path: string, text: string, found: seq<seq<Bytes>>, matches: seq<set<Match>>)
    returns (more: seq<set<Match>>)
    requires |found| == |matches| && forall c :: 0 <= c < |found| ==> InText(text, found[c])
    ensures |more| == |matches|
    ensures forall c :: 0 <= c < |more| ==> more[c] == matches[c] + MatchesOf(path, text, found[c])
  {
    var starts: Option<seq<nat>> := None;
    more := matches;
    for claim := 0 to |found|
      invariant starts.Some? ==> starts.value == LineStarts(text)
      invariant |more| == |matches|
      invariant forall c :: 0 <= c < claim ==> more[c] == matches[c] + MatchesOf(path, text, found[c])
      invariant forall c :: claim <= c < |more| ==> more[c] == matches[c]
    {
      for i := 0 to |found[claim]|
        invariant starts.Some? ==> starts.value == LineStarts(text)
        invariant |more| == |matches|
        invariant forall c :: 0 <= c < claim ==> more[c] == matches[c] + MatchesOf(path, text, found[c])
        invariant more[claim] == matches[claim] + MatchesOf(path, text, found[claim][..i])
        invariant forall c :: claim < c < |more| ==> more[c] == matches[c]
      {
        OneMoreFound(path, text, found[claim], i);
        var bytes := found[claim][i];
        if bytes.from < bytes.to {
          if starts.None? {
            var computed := FindStarts(text);
            starts := Some(computed);
          }
          var first := LineNumber(text, starts.value, bytes.from);
          var last := LineNumber(text, starts.value, bytes.to - 1);
          more := more[claim := more[claim] + {Match(path, first, last)}];
        }
      }
      assert found[claim][..|found[claim]|] == found[claim];
    }
  }

  lemma OneMoreFound(path: string, text: string, found: seq<Bytes>, i: nat)
    requires InText(text, found) && i < |found|
    ensures MatchesOf(path, text, found[..i + 1]) == MatchesOf(path, text, found[..i]) +
              (if found[i].from < found[i].to then {MatchOf(path, text, found[i])} else {})
  {
    var more, less := found[..i + 1], found[..i];
    assert more == less + [found[i]];
    forall m | m in MatchesOf(path, text, less) ensures m in MatchesOf(path, text, more) {
      var k :| 0 <= k < |less| && less[k].from < less[k].to && m == MatchOf(path, text, less[k]);
      assert more[k] == less[k];
    }
    forall m | m in MatchesOf(path, text, more)
      ensures m in MatchesOf(path, text, less) || (found[i].from < found[i].to && m == MatchOf(path, text, found[i]))
    {
      var k :| 0 <= k < |more| && more[k].from < more[k].to && m == MatchOf(path, text, more[k]);
      if k < i { assert less[k] == more[k]; }
    }
    if found[i].from < found[i].to { assert more[i] == found[i]; }
  }

  /** A region as completeness reads it: a file, and its markers' lines. */
  datatype Area = Area(path: string, begin: nat, end: nat)

  predicate Accepts(area: Area, found: Match) {
    area.path == found.path && area.begin < found.first && found.last < area.end
  }

  predicate Held(exceptions: set<string>, accepted: seq<Area>, found: Match) {
    found.path in exceptions || exists i :: 0 <= i < |accepted| && Accepts(accepted[i], found)
  }

  /** A claim's matches outside every accepted region and excepted file. */
  function Outside(exceptions: set<string>, matches: seq<Match>, accepted: seq<Area>): seq<Match> {
    if matches == [] then [] else
    (if Held(exceptions, accepted, matches[0]) then [] else [matches[0]]) + Outside(exceptions, matches[1..], accepted)
  }

  lemma {:induction false} OutsideMembers(exceptions: set<string>, matches: seq<Match>, accepted: seq<Area>, x: Match)
    ensures x in Outside(exceptions, matches, accepted) <==> x in matches && !Held(exceptions, accepted, x)
  {
    if matches != [] { OutsideMembers(exceptions, matches[1..], accepted, x); }
  }

  lemma {:induction false} LinesAscend(text: string, a: nat, b: nat)
    requires a <= b < |text|
    ensures LineAt(text, a) <= LineAt(text, b)
    decreases |text|
  {
    var end := Newline(text);
    if end < a { LinesAscend(text[end + 1..], a - end - 1, b - end - 1); }
  }

  /** A match lies in a region exactly when each of its bytes is on a line strictly between the markers. */
  lemma InsideByBytes(area: Area, path: string, text: string, found: Bytes)
    requires found.from < found.to <= |text|
    ensures Accepts(area, MatchOf(path, text, found)) <==>
            area.path == path &&
            forall b {:trigger LineAt(text, b)} :: found.from <= b < found.to ==>
              area.begin < LineAt(text, b) < area.end
  {
    hide LineAt;
    forall b | found.from <= b < found.to
      ensures LineAt(text, found.from) <= LineAt(text, b) <= LineAt(text, found.to - 1)
    {
      LinesAscend(text, found.from, b);
      LinesAscend(text, b, found.to - 1);
    }
    var m := MatchOf(path, text, found);
    assert m.first == LineAt(text, found.from) && m.last == LineAt(text, found.to - 1);
  }

  /**
   A claim re-checked in one file holds exactly when, unless the file is excepted, every range found
   has all its bytes strictly between the markers of one accepted region of the file.
   */
  lemma ClaimHolds(exceptions: set<string>, accepted: seq<Area>, path: string, text: string, found: seq<Bytes>,
      matches: seq<Match>)
    requires InText(text, found) && (forall m :: m in matches <==> m in MatchesOf(path, text, found))
    ensures Outside(exceptions, matches, accepted) == [] <==>
            path in exceptions ||
            forall i :: 0 <= i < |found| && found[i].from < found[i].to ==>
              exists k :: 0 <= k < |accepted| && Accepts(accepted[k], MatchOf(path, text, found[i]))
  {
    var outside := Outside(exceptions, matches, accepted);
    forall m ensures m in outside <==> m in matches && !Held(exceptions, accepted, m) {
      OutsideMembers(exceptions, matches, accepted, m);
    }
    if outside != [] {
      assert outside[0] in outside;
      var i :| 0 <= i < |found| && found[i].from < found[i].to && outside[0] == MatchOf(path, text, found[i]);
      assert !Held(exceptions, accepted, MatchOf(path, text, found[i]));
    } else if path !in exceptions {
      forall i | 0 <= i < |found| && found[i].from < found[i].to
        ensures exists k :: 0 <= k < |accepted| && Accepts(accepted[k], MatchOf(path, text, found[i]))
      {
        assert MatchOf(path, text, found[i]) in MatchesOf(path, text, found);
        assert Held(exceptions, accepted, MatchOf(path, text, found[i]));
      }
    }
  }
}
