/**
 What the scanner recognizes: files whose markers nest.

 A `Doc` is a file as a tree: plain lines, and pairs of marker lines around a smaller document. It is
 the grammar of balanced files, written without a stack. The scan finds no error in exactly the
 files that are some document's lines, and then its regions are that document's pairs.
 */
module Nesting {
  import opened Common
  import opened Text
  import opened Marker
  import opened Scan

  datatype Doc =
    | Nil
    | Line(text: string, rest: Doc)
    | Pair(begin: string, key: string, body: Doc, end: string, rest: Doc)

  function Flat(d: Doc): seq<string> {
    match d
    case Nil => []
    case Line(text, rest) => [text] + Flat(rest)
    case Pair(begin, _, body, end, rest) => [begin] + Flat(body) + [end] + Flat(rest)
  }

  predicate Marks(keys: Keys, line: string, edge: Edge, key: string) {
    MarkOf(line) == Some(Mark(edge, Some(key), None)) && keys(key) == Bindable
  }

  /** Plain lines hold no marker; a pair's markers are well formed, bindable, and repeat its key. */
  predicate Good(keys: Keys, d: Doc)
    decreases d
  {
    match d
    case Nil => true
    case Line(text, rest) => MarkOf(text) == None && Good(keys, rest)
    case Pair(begin, key, body, end, rest) =>
      Marks(keys, begin, Begin, key) && Good(keys, body) && Marks(keys, end, End, key) && Good(keys, rest)
  }

  function Append(d: Doc, e: Doc): Doc {
    match d
    case Nil => e
    case Line(text, rest) => Line(text, Append(rest, e))
    case Pair(begin, key, body, end, rest) => Pair(begin, key, body, end, Append(rest, e))
  }

  lemma {:induction false} AppendFlat(keys: Keys, d: Doc, e: Doc)
    ensures Flat(Append(d, e)) == Flat(d) + Flat(e)
    ensures Good(keys, Append(d, e)) <==> Good(keys, d) && Good(keys, e)
    decreases d
  {
    hide MarkOf;
    match d
    case Nil =>
    case Line(_, rest) => AppendFlat(keys, rest, e);
    case Pair(_, _, _, _, rest) => AppendFlat(keys, rest, e);
  }

  /** The line of the end marker of a pair that begins at line `at`. */
  function EndLine(body: Doc, at: nat): nat {
    at + 1 + |Flat(body)|
  }

  /** The pairs of a document that starts at line `at`, in the order they close. */
  function ClosedOf(d: Doc, at: nat): seq<Closed>
    decreases d
  {
    match d
    case Nil => []
    case Line(_, rest) => ClosedOf(rest, at + 1)
    case Pair(_, key, body, _, rest) =>
      ClosedOf(body, at + 1) + [Closed(key, at, EndLine(body, at), NestedOf(body, at + 1))] +
      ClosedOf(rest, EndLine(body, at) + 1)
  }

  /** A document's outermost pairs. */
  function NestedOf(d: Doc, at: nat): seq<Nested>
    decreases d
  {
    match d
    case Nil => []
    case Line(_, rest) => NestedOf(rest, at + 1)
    case Pair(_, key, body, _, rest) =>
      [Nested(key, at, EndLine(body, at))] + NestedOf(rest, EndLine(body, at) + 1)
  }

  /** The effect of reading a whole document. */
  function After(s: State, closed: seq<Closed>, nested: seq<Nested>): State {
    var open :=
      if s.open == [] then [] else
      var parent := s.open[|s.open| - 1];
      s.open[..|s.open| - 1] + [parent.(nested := parent.nested + nested)];
    State(open, s.closed + closed, s.errors)
  }

  lemma AfterAfter(s: State, c: seq<Closed>, n: seq<Nested>, c': seq<Closed>, n': seq<Nested>)
    ensures After(After(s, c, n), c', n') == After(s, c + c', n + n')
  {
    assert s.closed + c + c' == s.closed + (c + c');
    if s.open != [] {
      var parent := s.open[|s.open| - 1];
      assert parent.nested + n + n' == parent.nested + (n + n');
      assert After(s, c, n).open[..|s.open| - 1] == s.open[..|s.open| - 1];
    }
  }

  lemma AfterNothing(s: State)
    ensures After(s, [], []) == s
  {
    assert s.closed + [] == s.closed;
    if s.open != [] {
      var parent := s.open[|s.open| - 1];
      assert parent.nested + [] == parent.nested;
      assert s.open[..|s.open| - 1] + [parent] == s.open;
    }
  }

  lemma ReadPlain(keys: Keys, s: State, n: nat, line: string)
    requires MarkOf(line) == None
    ensures Step(keys, s, n, line) == s
  {
  }

  lemma ReadBegin(keys: Keys, s: State, n: nat, line: string, key: string)
    requires Marks(keys, line, Begin, key)
    ensures Step(keys, s, n, line) == s.(open := s.open + [Open(key, n, [])])
  {
    hide MarkOf;
    assert s.errors + [] == s.errors;
  }

  lemma ReadEnd(keys: Keys, s: State, n: nat, line: string, key: string)
    requires Marks(keys, line, End, key) && s.open != [] && s.open[|s.open| - 1].key == key
    ensures var region := s.open[|s.open| - 1];
            Step(keys, s, n, line) ==
            After(s.(open := s.open[..|s.open| - 1]), [Closed(key, region.line, n, region.nested)],
              [Nested(key, region.line, n)])
  {
    hide MarkOf;
    assert s.errors + [] == s.errors;
    var at := |s.open| - 1;
    assert LastWith(s.open, key) == Some(at);
    assert s.open[..at] + s.open[at + 1..] == s.open[..at];
  }

  /** Reading a document's lines closes its pairs, leaves what is open open, and finds no error. */
  lemma {:induction false} ReadDoc(keys: Keys, s: State, n: nat, d: Doc)
    requires Good(keys, d)
    ensures Run(keys, s, n, Flat(d)) == After(s, ClosedOf(d, n), NestedOf(d, n))
    decreases d, 0
  {
    hide MarkOf, Step, After, Marks;
    match d
    case Nil => AfterNothing(s);
    case Line(text, rest) =>
      ReadPlain(keys, s, n, text);
      assert Flat(d)[1..] == Flat(rest);
      ReadDoc(keys, s, n + 1, rest);
    case Pair(begin, key, body, end, rest) =>
      ReadPair(keys, s, n, begin, key, body, end);
      var m := EndLine(body, n);
      var pair := [begin] + Flat(body) + [end];
      RunConcat(keys, s, n, pair, Flat(rest));
      var t := Run(keys, s, n, pair);
      ReadDoc(keys, t, m + 1, rest);
      AfterAfter(s, ClosedOf(body, n + 1) + [Closed(key, n, m, NestedOf(body, n + 1))], [Nested(key, n, m)],
                 ClosedOf(rest, m + 1), NestedOf(rest, m + 1));
  }

  lemma {:induction false} ReadPair(keys: Keys, s: State, n: nat, begin: string, key: string, body: Doc, end: string)
    requires Marks(keys, begin, Begin, key) && Good(keys, body) && Marks(keys, end, End, key)
    ensures Run(keys, s, n, [begin] + Flat(body) + [end]) ==
            After(s, ClosedOf(body, n + 1) + [Closed(key, n, EndLine(body, n), NestedOf(body, n + 1))],
                  [Nested(key, n, EndLine(body, n))])
    decreases body, 1
  {
    hide MarkOf, Step, Marks, ClosedOf, NestedOf, Flat, Good;
    var m := EndLine(body, n);
    var t := s.(open := s.open + [Open(key, n, [])]);
    ReadBegin(keys, s, n, begin, key);
    RunOne(keys, s, n, begin);
    RunConcat(keys, s, n, [begin], Flat(body));
    ReadDoc(keys, t, n + 1, body);
    var u := After(t, ClosedOf(body, n + 1), NestedOf(body, n + 1));
    RunConcat(keys, s, n, [begin] + Flat(body), [end]);
    RunOne(keys, u, m, end);
    assert [] + NestedOf(body, n + 1) == NestedOf(body, n + 1);
    assert t.open[..|t.open| - 1] == s.open;
    assert u.open == s.open + [Open(key, n, NestedOf(body, n + 1))];
    ReadEnd(keys, u, m, end, key);
    assert u.open[..|u.open| - 1] == s.open;
    Regroup(s, u, ClosedOf(body, n + 1), Closed(key, n, m, NestedOf(body, n + 1)), Nested(key, n, m));
  }

  lemma Regroup(s: State, u: State, c: seq<Closed>, last: Closed, nested: Nested)
    requires u.closed == s.closed + c && u.errors == s.errors
    ensures After(u.(open := s.open), [last], [nested]) == After(s, c + [last], [nested])
  {
  }

  /** A file partly read: the documents around each open pair, and the one being read. */
  datatype Zip = Top(doc: Doc) | Under(outer: Zip, begin: string, key: string, doc: Doc)

  /** The lines read before the document being read. */
  function Before(z: Zip): seq<string> {
    match z
    case Top(_) => []
    case Under(outer, begin, _, _) => Before(outer) + Flat(outer.doc) + [begin]
  }

  function FlatZip(z: Zip): seq<string> {
    Before(z) + Flat(z.doc)
  }

  predicate GoodZip(keys: Keys, z: Zip)
    decreases z
  {
    match z
    case Top(doc) => Good(keys, doc)
    case Under(outer, begin, key, doc) => GoodZip(keys, outer) && Marks(keys, begin, Begin, key) && Good(keys, doc)
  }

  function OpenKeys(z: Zip): seq<string> {
    match z
    case Top(_) => []
    case Under(outer, _, key, _) => OpenKeys(outer) + [key]
  }

  function Extend(z: Zip, d: Doc): Zip {
    z.(doc := Append(z.doc, d))
  }

  ghost predicate Reads(keys: Keys, z: Zip, lines: seq<string>, s: State) {
    && GoodZip(keys, z) && FlatZip(z) == lines
    && |s.open| == |OpenKeys(z)|
    && forall i :: 0 <= i < |s.open| ==> s.open[i].key == OpenKeys(z)[i]
  }

  lemma StepKeepsErrors(keys: Keys, s: State, n: nat, line: string)
    ensures s.errors <= Step(keys, s, n, line).errors
  {
    hide MarkOf;
  }

  /** A marker read without error is well formed and bindable. */
  lemma CleanMark(keys: Keys, s: State, n: nat, line: string)
    requires Step(keys, s, n, line).errors == [] && MarkOf(line).Some?
    ensures var mark := MarkOf(line).value; mark.key.Some? && Marks(keys, line, mark.edge, mark.key.value)
  {
    KeyOrMalformed(line);
    hide MarkOf;
    var mark := MarkOf(line).value;
    var judged := s.(errors := s.errors + Judge(keys, n, mark));
    assert judged.errors <= Step(keys, s, n, line).errors;
    assert Judge(keys, n, mark) == [];
  }

  /** An end that does not close the innermost region is an error. */
  lemma EndErrors(s: State, n: nat, key: string)
    requires s.open == [] || s.open[|s.open| - 1].key != key
    ensures |s.errors| < |EndAt(s, n, key).errors|
  {
    match LastWith(s.open, key)
    case Some(at) => assert at < |s.open[..at] + s.open[at + 1..]|;
    case None =>
  }

  /** An end read without error closes the innermost region. */
  lemma CleanEnd(keys: Keys, s: State, n: nat, line: string, key: string)
    requires Step(keys, s, n, line).errors == [] && Marks(keys, line, End, key)
    ensures s.open != [] && s.open[|s.open| - 1].key == key
  {
    hide MarkOf, EndAt;
    var judged := s.(errors := s.errors + Judge(keys, n, MarkOf(line).value));
    assert Step(keys, s, n, line) == EndAt(judged, n, key);
    if s.open == [] || s.open[|s.open| - 1].key != key {
      EndErrors(judged, n, key);
    }
  }

  lemma ExtendKeeps(keys: Keys, z: Zip, d: Doc)
    requires GoodZip(keys, z) && Good(keys, Append(z.doc, d))
    ensures GoodZip(keys, Extend(z, d)) && OpenKeys(Extend(z, d)) == OpenKeys(z) && Before(Extend(z, d)) == Before(z)
  {
  }

  lemma ExtendZip(keys: Keys, z: Zip, lines: seq<string>, s: State, line: string) returns (z': Zip)
    requires Reads(keys, z, lines, s) && MarkOf(line) == None
    ensures Reads(keys, z', lines + [line], s)
  {
    hide MarkOf, Marks;
    z' := Extend(z, Line(line, Nil));
    AppendFlat(keys, z.doc, Line(line, Nil));
    assert Flat(Line(line, Nil)) == [line];
  }

  lemma OpenZip(keys: Keys, z: Zip, lines: seq<string>, s: State, t: State, line: string, key: string) returns (z': Zip)
    requires Reads(keys, z, lines, s) && Marks(keys, line, Begin, key)
    requires |t.open| == |s.open| + 1 && t.open[|s.open|].key == key && t.open[..|s.open|] == s.open
    ensures Reads(keys, z', lines + [line], t)
  {
    hide MarkOf, Marks;
    z' := Under(z, line, key, Nil);
    assert forall i :: 0 <= i < |s.open| ==> t.open[i] == s.open[i];
  }

  lemma CloseZip(keys: Keys, z: Zip, lines: seq<string>, s: State, t: State, line: string, key: string)
    returns (z': Zip)
    requires Reads(keys, z, lines, s) && Marks(keys, line, End, key)
    requires s.open != [] && s.open[|s.open| - 1].key == key
    requires |t.open| == |s.open| - 1 && forall i :: 0 <= i < |t.open| ==> t.open[i].key == s.open[i].key
    ensures Reads(keys, z', lines + [line], t)
  {
    hide MarkOf, Marks, Flat, FlatZip, Before;
    var pair := Pair(z.begin, z.key, z.doc, line, Nil);
    assert z.key == OpenKeys(z)[|s.open| - 1];
    z' := Extend(z.outer, pair);
    AppendFlat(keys, z.outer.doc, pair);
    ExtendKeeps(keys, z.outer, pair);
    FlatParts(z.outer, z, pair, z', line);
    Associate(Before(z.outer), Flat(z.outer.doc), z.begin, Flat(z.doc), line);
  }

  lemma FlatParts(outer: Zip, z: Zip, pair: Doc, z': Zip, line: string)
    requires z.Under? && z.outer == outer && pair == Pair(z.begin, z.key, z.doc, line, Nil)
    ensures FlatZip(z) == Before(outer) + Flat(outer.doc) + [z.begin] + Flat(z.doc)
    ensures Flat(pair) == [z.begin] + Flat(z.doc) + [line]
    ensures FlatZip(z') == Before(z') + Flat(z'.doc)
  {
  }

  lemma Associate(a: seq<string>, b: seq<string>, x: string, c: seq<string>, y: string)
    ensures a + b + [x] + c + [y] == a + (b + ([x] + c + [y]))
  {
  }

  lemma StartReads(keys: Keys)
    ensures Reads(keys, Top(Nil), [], Run(keys, START, 1, []))
  {
  }

  lemma {:induction false} CleanRun(keys: Keys, lines: seq<string>, t: State) returns (z: Zip)
    requires t == Run(keys, START, 1, lines) && t.errors == []
    ensures Reads(keys, z, lines, t)
    decreases |lines|
  {
    hide MarkOf, Marks, Step, Run, Reads;
    if lines == [] {
      StartReads(keys);
      z := Top(Nil);
    } else {
      var n := |lines| - 1;
      assert lines == lines[..n] + [lines[n]];
      RunConcat(keys, START, 1, lines[..n], [lines[n]]);
      var s := Run(keys, START, 1, lines[..n]);
      RunOne(keys, s, n + 1, lines[n]);
      StepKeepsErrors(keys, s, n + 1, lines[n]);
      var before := CleanRun(keys, lines[..n], s);
      var line := lines[n];
      assert t == Step(keys, s, n + 1, line);
      if MarkOf(line) == None {
        ReadPlain(keys, s, n + 1, line);
        z := ExtendZip(keys, before, lines[..n], s, line);
      } else {
        CleanMark(keys, s, n + 1, line);
        var mark := MarkOf(line).value;
        var key := mark.key.value;
        if mark.edge.Begin? {
          ReadBegin(keys, s, n + 1, line, key);
          z := OpenZip(keys, before, lines[..n], s, t, line, key);
        } else {
          CleanEnd(keys, s, n + 1, line, key);
          ReadEnd(keys, s, n + 1, line, key);
          z := CloseZip(keys, before, lines[..n], s, t, line, key);
        }
      }
    }
  }

  /** A file in which the scan finds nothing wrong is some document's lines. */
  lemma CleanFile(keys: Keys, lines: seq<string>) returns (d: Doc)
    requires Errors(keys, lines) == []
    ensures Good(keys, d) && Flat(d) == lines
  {
    hide MarkOf, Marks;
    var s := Run(keys, START, 1, lines);
    var z := CleanRun(keys, lines, s);
    assert s.open == [];
    d := z.doc;
  }

  lemma GoodFile(keys: Keys, d: Doc)
    requires Good(keys, d)
    ensures Errors(keys, Flat(d)) == []
    ensures Run(keys, START, 1, Flat(d)).closed == ClosedOf(d, 1)
  {
    ReadDoc(keys, START, 1, d);
  }

  /** The scan reports nothing exactly when the file is a document: its markers nest in pairs of one key. */
  lemma CleanIffNested(keys: Keys, lines: seq<string>)
    ensures Errors(keys, lines) == [] <==> exists d :: Good(keys, d) && Flat(d) == lines
  {
    if Errors(keys, lines) == [] {
      var d := CleanFile(keys, lines);
    } else if exists d :: Good(keys, d) && Flat(d) == lines {
      var d :| Good(keys, d) && Flat(d) == lines;
      GoodFile(keys, d);
    }
  }
}
