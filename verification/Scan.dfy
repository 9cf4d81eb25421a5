/**
 Scanning one file: a stack automaton over its markers, and the residual of each region it pairs.

 `Step` and `Run` say what reading one line and a run of lines does; `ScanFile` is the source's loop,
 proved to compute them. What a key is worth is a parameter: whether it parses and names a bindable
 kind of declaration.
 */
module Scan {
  import opened Common
  import opened Text
  import opened Marker

  datatype Worth = Bindable | NotBindable | Unparsed

  type Keys = string -> Worth

  datatype Fault =
    | MalformedMarker(how: Malformed)
    | BadKey(key: string)
    | UnbindableKey(key: string)
    | UnclosedRegion(key: string)
    | UnopenedRegion(key: string)
    | Mismatched(begin: string, beginLine: nat, end: string)
    | Overlap(key: string, beginLine: nat, other: string, otherLine: nat)

  datatype Error = Error(line: nat, fault: Fault)

  /** A region directly nested in another: all its residual keeps of it. */
  datatype Nested = Nested(key: string, first: nat, last: nat)

  /** A region whose end has not been read yet. */
  datatype Open = Open(key: string, line: nat, nested: seq<Nested>)

  /** A paired region. */
  datatype Closed = Closed(key: string, first: nat, last: nat, nested: seq<Nested>)

  datatype Region = Region(key: string, first: nat, last: nat, residual: string)

  datatype State = State(open: seq<Open>, closed: seq<Closed>, errors: seq<Error>)

  const START := State([], [], [])

  /** What is wrong with a marker by itself. */
  function Judge(keys: Keys, n: nat, mark: Mark): seq<Error> {
    match mark.malformed
    case Some(how) => [Error(n, MalformedMarker(how))]
    case None =>
      if mark.key.None? then [] else
      match keys(mark.key.value)
      case Bindable => []
      case NotBindable => [Error(n, UnbindableKey(mark.key.value))]
      case Unparsed => [Error(n, BadKey(mark.key.value))]
  }

  /** The innermost open region with a key. */
  function LastWith(open: seq<Open>, key: string): (at: Option<nat>)
    ensures at.Some? ==> at.value < |open| && open[at.value].key == key
    ensures at.Some? ==> forall i :: at.value < i < |open| ==> open[i].key != key
    ensures at.None? ==> forall i :: 0 <= i < |open| ==> open[i].key != key
  {
    if open == [] then None
    else if open[|open| - 1].key == key then Some(|open| - 1)
    else LastWith(open[..|open| - 1], key)
  }

  /** Closes `region` at line `n`, nested in the region now innermost, if any. */
  function CloseIn(region: Open, n: nat, s: State): State {
    var open :=
      if s.open == [] then [] else
      var parent := s.open[|s.open| - 1];
      s.open[..|s.open| - 1] + [parent.(nested := parent.nested + [Nested(region.key, region.line, n)])];
    s.(open := open, closed := s.closed + [Closed(region.key, region.line, n, region.nested)])
  }

  /** An end marker: it closes the innermost region with its key, and else the innermost region. */
  function EndAt(s: State, n: nat, key: string): State {
    match LastWith(s.open, key)
    case Some(at) =>
      var region := s.open[at];
      var open := s.open[..at] + s.open[at + 1..];
      var errors :=
        if at < |open| then [Error(n, Overlap(key, region.line, open[at].key, open[at].line))] else [];
      CloseIn(region, n, s.(open := open, errors := s.errors + errors))
    case None =>
      if s.open == [] then s.(errors := s.errors + [Error(n, UnopenedRegion(key))]) else
      var region := s.open[|s.open| - 1];
      CloseIn(region, n, s.(open := s.open[..|s.open| - 1],
                            errors := s.errors + [Error(n, Mismatched(region.key, region.line, key))]))
  }

  function Step(keys: Keys, s: State, n: nat, line: string): State {
    match MarkOf(line)
    case None => s
    case Some(mark) =>
      var judged := s.(errors := s.errors + Judge(keys, n, mark));
      if mark.key.None? then judged
      else if mark.edge.Begin? then judged.(open := judged.open + [Open(mark.key.value, n, [])])
      else EndAt(judged, n, mark.key.value)
  }

  /** Reads lines, the first of which is line `n`. */
  function Run(keys: Keys, s: State, n: nat, lines: seq<string>): State
    decreases |lines|
  {
    if lines == [] then s else Run(keys, Step(keys, s, n, lines[0]), n + 1, lines[1..])
  }

  lemma {:induction false} RunConcat(keys: Keys, s: State, n: nat, a: seq<string>, b: seq<string>)
    ensures Run(keys, s, n, a + b) == Run(keys, Run(keys, s, n, a), n + |a|, b)
    decreases |a|
  {
    if a == [] {
      assert a + b == b;
    } else {
      assert (a + b)[1..] == a[1..] + b;
      RunConcat(keys, Step(keys, s, n, a[0]), n + 1, a[1..], b);
    }
  }

  lemma RunOne(keys: Keys, s: State, n: nat, line: string)
    ensures Run(keys, s, n, [line]) == Step(keys, s, n, line)
  {
    assert [line][1..] == [];
  }

  function Unclosed(open: seq<Open>): seq<Error> {
    if open == [] then [] else [Error(open[0].line, UnclosedRegion(open[0].key))] + Unclosed(open[1..])
  }

  /** Everything wrong with a file. */
  function Errors(keys: Keys, lines: seq<string>): seq<Error> {
    var s := Run(keys, START, 1, lines);
    s.errors + Unclosed(s.open)
  }

  /**
   A region's residual from line `number` on: its lines, each ended by `\n`, with each directly nested
   region, markers included, replaced by one line holding its key.
   */
  function ResidualFrom(lines: seq<string>, nested: seq<Nested>, number: nat, last: nat): string
    decreases last - number
  {
    if number == 0 || last <= number || |lines| < number then ""
    else if nested != [] && nested[0].first == number && number <= nested[0].last then
      nested[0].key + "\n" + ResidualFrom(lines, nested[1..], nested[0].last + 1, last)
    else lines[number - 1] + "\n" + ResidualFrom(lines, nested, number + 1, last)
  }

  function RegionOf(lines: seq<string>, region: Closed): Region {
    Region(region.key, region.first, region.last, ResidualFrom(lines, region.nested, region.first + 1, region.last))
  }

  function RegionsOf(lines: seq<string>, closed: seq<Closed>): seq<Region> {
    seq(|closed|, i requires 0 <= i < |closed| => RegionOf(lines, closed[i]))
  }

  /** Puts an error after those on its line or an earlier one: the sort is stable. */
  function InsertError(errors: seq<Error>, error: Error): seq<Error> {
    if errors == [] then [error]
    else if errors[|errors| - 1].line <= error.line then errors + [error]
    else InsertError(errors[..|errors| - 1], error) + [errors[|errors| - 1]]
  }

  function SortErrors(errors: seq<Error>): seq<Error> {
    if errors == [] then [] else InsertError(SortErrors(errors[..|errors| - 1]), errors[|errors| - 1])
  }

  function InsertRegion(regions: seq<Region>, region: Region): seq<Region> {
    if regions == [] then [region]
    else
      var last := regions[|regions| - 1];
      if last.first < region.first || (last.first == region.first && last.last <= region.last) then regions + [region]
      else InsertRegion(regions[..|regions| - 1], region) + [last]
  }

  function SortRegions(regions: seq<Region>): seq<Region> {
    if regions == [] then [] else InsertRegion(SortRegions(regions[..|regions| - 1]), regions[|regions| - 1])
  }

  /** A file's regions: none while anything is wrong with it. */
  function Regions(keys: Keys, lines: seq<string>): seq<Region> {
    if Errors(keys, lines) != [] then []
    else SortRegions(RegionsOf(lines, Run(keys, START, 1, lines).closed))
  }

  lemma LastApart<T>(s: seq<T>)
    requires s != []
    ensures multiset(s) == multiset(s[..|s| - 1]) + multiset{s[|s| - 1]}
  {
    assert s == s[..|s| - 1] + [s[|s| - 1]];
  }

  lemma {:induction false} InsertErrorSame(errors: seq<Error>, error: Error)
    ensures multiset(InsertError(errors, error)) == multiset(errors) + multiset{error}
  {
    if errors != [] && error.line < errors[|errors| - 1].line {
      InsertErrorSame(errors[..|errors| - 1], error);
      LastApart(errors);
    }
  }

  /** Sorting loses no error, so a file is without errors exactly when none is reported. */
  lemma {:induction false} SortErrorsSame(errors: seq<Error>)
    ensures multiset(SortErrors(errors)) == multiset(errors)
    ensures SortErrors(errors) == [] <==> errors == []
  {
    if errors != [] {
      var rest := errors[..|errors| - 1];
      SortErrorsSame(rest);
      InsertErrorSame(SortErrors(rest), errors[|errors| - 1]);
      LastApart(errors);
    }
    assert errors != [] ==> |multiset(errors)| > 0;
  }

  ghost predicate ByLine(errors: seq<Error>) {
    forall i, j :: 0 <= i < j < |errors| ==> errors[i].line <= errors[j].line
  }

  function OnLine(errors: seq<Error>, n: nat): seq<Error> {
    if errors == [] then [] else
    OnLine(errors[..|errors| - 1], n) + if errors[|errors| - 1].line == n then [errors[|errors| - 1]] else []
  }

  lemma OnLinePush(errors: seq<Error>, error: Error, n: nat)
    ensures OnLine(errors + [error], n) == OnLine(errors, n) + if error.line == n then [error] else []
  {
    assert (errors + [error])[..|errors|] == errors;
  }

  lemma ByLinePush(errors: seq<Error>, error: Error)
    requires ByLine(errors) && forall e :: e in errors ==> e.line <= error.line
    ensures ByLine(errors + [error])
  {
    forall i | 0 <= i < |errors| ensures errors[i].line <= error.line { assert errors[i] in errors; }
  }

  lemma {:induction false} InsertErrorOrder(errors: seq<Error>, error: Error)
    requires ByLine(errors)
    ensures ByLine(InsertError(errors, error))
    ensures forall e :: e in InsertError(errors, error) ==> e in errors || e == error
  {
    if errors != [] && error.line < errors[|errors| - 1].line {
      var rest, last := errors[..|errors| - 1], errors[|errors| - 1];
      InsertErrorOrder(rest, error);
      hide ByLine;
      forall e | e in InsertError(rest, error) ensures e.line <= last.line {
        if e in rest { LineBelow(errors, e); }
      }
      ByLinePush(InsertError(rest, error), last);
    } else {
      forall e | e in errors ensures e.line <= error.line { LineBelow(errors, e); }
      ByLinePush(errors, error);
    }
  }

  lemma {:induction false} InsertErrorOnLine(errors: seq<Error>, error: Error, n: nat)
    ensures OnLine(InsertError(errors, error), n) == OnLine(errors, n) + if error.line == n then [error] else []
  {
    if errors != [] && error.line < errors[|errors| - 1].line {
      var rest, last := errors[..|errors| - 1], errors[|errors| - 1];
      InsertErrorOnLine(rest, error, n);
      OnLinePush(InsertError(rest, error), last, n);
    } else {
      OnLinePush(errors, error, n);
    }
  }

  lemma LineBelow(errors: seq<Error>, e: Error)
    requires ByLine(errors) && e in errors
    ensures e.line <= errors[|errors| - 1].line
  {
    var i :| 0 <= i < |errors| && errors[i] == e;
    if i < |errors| - 1 { assert errors[i].line <= errors[|errors| - 1].line; }
  }

  /** The errors reported come by line, and those of one line in the order they were found. */
  lemma {:induction false} ErrorsByLine(errors: seq<Error>, n: nat)
    ensures ByLine(SortErrors(errors))
    ensures OnLine(SortErrors(errors), n) == OnLine(errors, n)
  {
    if errors != [] {
      var rest := errors[..|errors| - 1];
      ErrorsByLine(rest, n);
      InsertErrorOrder(SortErrors(rest), errors[|errors| - 1]);
      InsertErrorOnLine(SortErrors(rest), errors[|errors| - 1], n);
    }
  }

  /** The innermost open region with a key. */
  predicate Innermost(open: seq<Open>, key: string, at: nat) {
    at < |open| && open[at].key == key && forall i :: at < i < |open| ==> open[i].key != key
  }

  /**
   What an end marker is reported for: nothing, when its key is the innermost region's; overlapping the
   region opened next, when its region is further out; and with its key not open, what it fails to close.
   */
  lemma EndFault(s: State, n: nat, key: string)
    ensures s.open == [] ==> EndAt(s, n, key) == s.(errors := s.errors + [Error(n, UnopenedRegion(key))])
    ensures forall at: nat :: Innermost(s.open, key, at) ==>
              EndAt(s, n, key).closed == s.closed + [Closed(key, s.open[at].line, n, s.open[at].nested)] &&
              EndAt(s, n, key).errors == s.errors +
                if at == |s.open| - 1 then []
                else [Error(n, Overlap(key, s.open[at].line, s.open[at + 1].key, s.open[at + 1].line))]
    ensures s.open != [] && (forall i :: 0 <= i < |s.open| ==> s.open[i].key != key) ==>
              var last := s.open[|s.open| - 1];
              EndAt(s, n, key).closed == s.closed + [Closed(last.key, last.line, n, last.nested)] &&
              EndAt(s, n, key).errors == s.errors + [Error(n, Mismatched(last.key, last.line, key))]
  {
    forall at: nat | Innermost(s.open, key, at) ensures LastWith(s.open, key) == Some(at) {
      assert s.open[at].key == key;
    }
  }

  /** What any marker is reported for by itself: its form, or else its key. */
  lemma MarkerFault(keys: Keys, s: State, n: nat, line: string)
    requires MarkOf(line).Some?
    ensures var mark := MarkOf(line).value;
            var own := if mark.malformed.Some? then [Error(n, MalformedMarker(mark.malformed.value))]
                       else if keys(mark.key.value) == Unparsed then [Error(n, BadKey(mark.key.value))]
                       else if keys(mark.key.value) == NotBindable then [Error(n, UnbindableKey(mark.key.value))]
                       else [];
            Step(keys, s, n, line) ==
            if mark.key.None? then s.(errors := s.errors + own)
            else if mark.edge == Begin
            then s.(errors := s.errors + own, open := s.open + [Open(mark.key.value, n, [])])
            else EndAt(s.(errors := s.errors + own), n, mark.key.value)
  {
    KeyOrMalformed(line);
    hide MarkOf, EndAt;
  }

  /** Every region left open is reported, at the line it begins. */
  lemma {:induction false} UnclosedAll(open: seq<Open>, i: nat)
    requires i < |open|
    ensures |Unclosed(open)| == |open| && Unclosed(open)[i] == Error(open[i].line, UnclosedRegion(open[i].key))
  {
    if |open| > 1 { UnclosedAll(open[1..], if i == 0 then 0 else i - 1); }
  }

  /** Every closed region lies within the lines read, so the residual loop never leaves the file. */
  ghost predicate Within(s: State, count: nat) {
    && (forall i :: 0 <= i < |s.open| ==> 1 <= s.open[i].line <= count && NestedWithin(s.open[i].nested, count))
    && (forall i :: 0 <= i < |s.closed| ==>
          1 <= s.closed[i].first <= s.closed[i].last <= count && NestedWithin(s.closed[i].nested, count))
  }

  ghost predicate NestedWithin(nested: seq<Nested>, count: nat) {
    forall i :: 0 <= i < |nested| ==> nested[i].first <= nested[i].last <= count
  }

  lemma StepWithin(keys: Keys, s: State, n: nat, line: string)
    requires 0 < n && Within(s, n - 1)
    ensures Within(Step(keys, s, n, line), n)
  {
    hide MarkOf, CloseIn;
    match MarkOf(line)
    case None =>
    case Some(mark) =>
      var judged := s.(errors := s.errors + Judge(keys, n, mark));
      if mark.key.Some? && mark.edge.End? {
        EndWithin(judged, n, mark.key.value);
      }
  }

  lemma EndWithin(s: State, n: nat, key: string)
    requires 0 < n && Within(s, n - 1)
    ensures Within(EndAt(s, n, key), n)
  {
    hide CloseIn;
    match LastWith(s.open, key)
    case Some(at) =>
      var region := s.open[at];
      var open := s.open[..at] + s.open[at + 1..];
      var errors :=
        if at < |open| then [Error(n, Overlap(key, region.line, open[at].key, open[at].line))] else [];
      CloseWithin(region, n, s.(open := open, errors := s.errors + errors));
    case None =>
      if s.open != [] {
        var region := s.open[|s.open| - 1];
        CloseWithin(region, n, s.(open := s.open[..|s.open| - 1],
                                  errors := s.errors + [Error(n, Mismatched(region.key, region.line, key))]));
      }
  }

  lemma CloseWithin(region: Open, n: nat, s: State)
    requires 0 < n && Within(s, n - 1)
    requires 1 <= region.line < n && NestedWithin(region.nested, n - 1)
    ensures Within(CloseIn(region, n, s), n)
  {
  }

  /** The residual of a closed region, by the source's loop. */
  method Residual(lines: seq<string>, region: Closed) returns (text: string)
    requires 1 <= region.first <= region.last <= |lines| && NestedWithin(region.nested, |lines|)
    ensures text == RegionOf(lines, region).residual
  {
    text := "";
    var nested := region.nested;
    var number := region.first + 1;
    while number < region.last
      invariant 1 <= number && NestedWithin(nested, |lines|)
      invariant text + ResidualFrom(lines, nested, number, region.last) == RegionOf(lines, region).residual
      decreases region.last - number
    {
      ghost var before := text;
      if nested != [] && nested[0].first == number {
        text := text + nested[0].key;
        Reassociate(before, nested[0].key, ResidualFrom(lines, nested[1..], nested[0].last + 1, region.last));
        number := nested[0].last + 1;
        nested := nested[1..];
      } else {
        text := text + lines[number - 1];
        Reassociate(before, lines[number - 1], ResidualFrom(lines, nested, number + 1, region.last));
        number := number + 1;
      }
      text := text + "\n";
    }
  }

  lemma Reassociate(text: string, line: string, rest: string)
    ensures text + line + "\n" + rest == text + (line + "\n" + rest)
  {
  }

  /** A file's regions, each with its residual, and its errors. */
  method ScanFile(keys: Keys, text: string) returns (regions: seq<Region>, errors: seq<Error>)
    ensures regions == Regions(keys, Lines(text))
    ensures errors == SortErrors(Errors(keys, Lines(text)))
  {
    if !Contains(text, "conseqa:") {
      NothingToScan(keys, text);
      return [], [];
    }
    var lines := SplitLines(text);
    var open, closed, found := ReadLines(keys, lines);
    errors := AddUnclosed(open, found);
    hide Run, Lines, Contains, SortRegions, SortErrors;
    assert errors == Errors(keys, lines);
    SortErrorsSame(errors);
    if errors != [] {
      return [], SortErrors(errors);
    }
    regions := Residuals(lines, closed);
    regions := SortRegions(regions);
  }

  method AddUnclosed(open: seq<Open>, found: seq<Error>) returns (errors: seq<Error>)
    ensures errors == found + Unclosed(open)
  {
    errors := found;
    for i := 0 to |open|
      invariant errors + Unclosed(open[i..]) == found + Unclosed(open)
    {
      errors := errors + [Error(open[i].line, UnclosedRegion(open[i].key))];
    }
  }

  /** Pairs the markers of a file's lines. */
  method ReadLines(keys: Keys, lines: seq<string>) returns (open: seq<Open>, closed: seq<Closed>, errors: seq<Error>)
    ensures State(open, closed, errors) == Run(keys, START, 1, lines)
    ensures Within(State(open, closed, errors), |lines|)
  {
    hide Step, Within;
    StartWithin();
    open, closed, errors := [], [], [];
    assert lines[..0] == [];
    for i := 0 to |lines|
      invariant State(open, closed, errors) == Run(keys, START, 1, lines[..i])
      invariant Within(State(open, closed, errors), i)
    {
      ghost var s := State(open, closed, errors);
      open, closed, errors := ReadLine(keys, open, closed, errors, i + 1, lines[i]);
      StepWithin(keys, s, i + 1, lines[i]);
      assert lines[..i + 1] == lines[..i] + [lines[i]];
      RunConcat(keys, START, 1, lines[..i], [lines[i]]);
      RunOne(keys, s, i + 1, lines[i]);
    }
    assert lines[..|lines|] == lines;
  }

  /** The regions closed, each with its residual. */
  method Residuals(lines: seq<string>, closed: seq<Closed>) returns (regions: seq<Region>)
    requires Within(State([], closed, []), |lines|)
    ensures regions == RegionsOf(lines, closed)
  {
    hide ResidualFrom, NestedWithin;
    regions := [];
    for i := 0 to |closed|
      invariant regions == RegionsOf(lines, closed)[..i]
    {
      var residual := Residual(lines, closed[i]);
      regions := regions + [Region(closed[i].key, closed[i].first, closed[i].last, residual)];
    }
  }

  lemma StartWithin()
    ensures State([], [], []) == START && Within(START, 0)
  {
  }

  /** Reads one line: the body of the source's loop. */
  method ReadLine(keys: Keys, open0: seq<Open>, closed0: seq<Closed>, errors0: seq<Error>, n: nat, line: string)
    returns (open: seq<Open>, closed: seq<Closed>, errors: seq<Error>)
    ensures State(open, closed, errors) == Step(keys, State(open0, closed0, errors0), n, line)
  {
    open, closed, errors := open0, closed0, errors0;
    var found := MarkOf(line);
    hide MarkOf;
    if found.None? { return; }
    var mark := found.value;
    errors := errors + Judge(keys, n, mark);
    if mark.key.None? { return; }
    var key := mark.key.value;
    if mark.edge.Begin? {
      open := open + [Open(key, n, [])];
      return;
    }
    var at := LastWith(open, key);
    var region: Open;
    if at.Some? {
      region := open[at.value];
      open := open[..at.value] + open[at.value + 1..];
      if at.value < |open| {
        errors := errors + [Error(n, Overlap(key, region.line, open[at.value].key, open[at.value].line))];
      }
    } else if open != [] {
      region := open[|open| - 1];
      open := open[..|open| - 1];
      errors := errors + [Error(n, Mismatched(region.key, region.line, key))];
    } else {
      errors := errors + [Error(n, UnopenedRegion(key))];
      return;
    }
    if open != [] {
      var parent := open[|open| - 1];
      open := open[|open| - 1 := parent.(nested := parent.nested + [Nested(region.key, region.line, n)])];
    }
    closed := closed + [Closed(region.key, region.line, n, region.nested)];
  }

  lemma SliceContains(text: string, from: nat, to: nat, pattern: string)
    requires from <= to <= |text| && Contains(text[from..to], pattern)
    ensures Contains(text, pattern)
  {
    var at := Find(text[from..to], pattern).value;
    SliceOfSlice(text, from, to, at, at + |pattern|);
    OccursContains(text, pattern, from + at);
  }

  lemma SliceOfSlice(text: string, from: nat, to: nat, i: nat, j: nat)
    requires from <= to <= |text| && i <= j <= to - from
    ensures text[from..to][i..j] == text[from + i..from + j]
  {
    forall k | 0 <= k < j - i ensures text[from..to][i..j][k] == text[from + i..from + j][k] {
      assert text[from..to][i..j][k] == text[from..to][i + k] == text[from + i + k];
    }
  }

  lemma StripIsPrefix(text: string, end: nat)
    requires end <= |text|
    ensures |StripReturn(text[..end])| <= end
    ensures StripReturn(text[..end]) == text[0..|StripReturn(text[..end])|]
  {
  }

  /** Lines are pieces of the text, so what a line contains the text contains. */
  lemma {:induction false} LinesArePieces(text: string, pattern: string, i: nat)
    requires i < |Lines(text)| && Contains(Lines(text)[i], pattern)
    ensures Contains(text, pattern)
    decreases |text|
  {
    hide Contains;
    var end := Newline(text);
    if end < |text| {
      if i == 0 {
        StripIsPrefix(text, end);
        SliceContains(text, 0, |StripReturn(text[..end])|, pattern);
      } else {
        LinesArePieces(text[end + 1..], pattern, i - 1);
        assert text[end + 1..] == text[end + 1..|text|];
        SliceContains(text, end + 1, |text|, pattern);
      }
    }
  }

  /** Passing over a file that does not hold the keywords' start changes nothing. */
  lemma NothingToScan(keys: Keys, text: string)
    requires !Contains(text, "conseqa:")
    ensures Errors(keys, Lines(text)) == [] && Regions(keys, Lines(text)) == []
  {
    var lines := Lines(text);
    forall i | 0 <= i < |lines| ensures MarkOf(lines[i]) == None {
      if Contains(lines[i], "conseqa:") { LinesArePieces(text, "conseqa:", i); }
      NoStartNoMark(lines[i]);
    }
    NoMarks(keys, START, 1, lines);
  }

  lemma {:induction false} NoMarks(keys: Keys, s: State, n: nat, lines: seq<string>)
    requires forall i :: 0 <= i < |lines| ==> MarkOf(lines[i]) == None
    ensures Run(keys, s, n, lines) == s
    decreases |lines|
  {
    hide MarkOf;
    if lines != [] {
      assert MarkOf(lines[0]) == None;
      NoMarks(keys, s, n + 1, lines[1..]);
    }
  }
}
