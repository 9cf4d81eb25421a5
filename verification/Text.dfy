/**
 Texts and their lines.

 A text is the sequence of its characters. Where byte offsets matter each character stands for one
 byte: a newline byte is part of no other character's UTF-8 encoding.
 */
module Text {
  import opened Common

  /** The place of the first newline, or the length where there is none. */
  function Newline(text: string): (n: nat)
    ensures n <= |text|
    ensures n < |text| ==> text[n] == '\n'
    ensures forall i :: 0 <= i < n ==> text[i] != '\n'
  {
    if text == "" || text[0] == '\n' then 0 else 1 + Newline(text[1..])
  }

  /** A line without the carriage return of a `\r\n` ending. */
  function StripReturn(line: string): string {
    if line != "" && line[|line| - 1] == '\r' then line[..|line| - 1] else line
  }

  /** A text's lines without their endings: only `\n` and `\r\n` end a line. */
  function Lines(text: string): seq<string>
    decreases |text|
  {
    var end := Newline(text);
    if end < |text| then [StripReturn(text[..end])] + Lines(text[end + 1..])
    else if text != "" then [text]
    else []
  }

  /** The source's loop, advancing a cursor from newline to newline. */
  method SplitLines(text: string) returns (lines: seq<string>)
    ensures lines == Lines(text)
  {
    lines := [];
    var rest := text;
    while Newline(rest) < |rest|
      invariant lines + Lines(rest) == Lines(text)
      decreases |rest|
    {
      var end := Newline(rest);
      lines := lines + [StripReturn(rest[..end])];
      rest := rest[end + 1..];
    }
    if rest != "" {
      lines := lines + [rest];
    }
  }

  predicate Ending(ending: string) {
    ending == "\n" || ending == "\r\n"
  }

  /** Lines written out, each with its own ending. */
  function Written(lines: seq<string>, endings: seq<string>): string
    requires |lines| == |endings|
  {
    if lines == [] then "" else lines[0] + endings[0] + Written(lines[1..], endings[1..])
  }

  /**
   A line that reads back from an ending: it holds no newline and, with an ending, ends in no carriage
   return. Only the last line may have no ending, and then there is something on it.
   */
  predicate Plain(line: string, ending: string, last: bool) {
    && '\n' !in line
    && if Ending(ending) then line != "" ==> line[|line| - 1] != '\r'
       else last && ending == "" && line != ""
  }

  lemma NewlineAt(text: string, n: nat)
    requires n < |text| && text[n] == '\n' && forall i :: 0 <= i < n ==> text[i] != '\n'
    ensures Newline(text) == n
  {
  }

  /** Line endings do not matter: lines written with any mixture of endings read back the same. */
  lemma {:induction false} EndingsDoNotMatter(lines: seq<string>, endings: seq<string>)
    requires |lines| == |endings|
    requires forall i :: 0 <= i < |lines| ==> Plain(lines[i], endings[i], i == |lines| - 1)
    ensures Lines(Written(lines, endings)) == lines
  {
    if lines != [] {
      assert Plain(lines[0], endings[0], |lines| == 1);
      var rest := Written(lines[1..], endings[1..]);
      if endings[0] == "" {
        assert lines == [lines[0]] && Written(lines, endings) == lines[0];
      } else {
        FirstLine(lines[0], endings[0], rest);
        EndingsDoNotMatter(lines[1..], endings[1..]);
      }
    }
  }

  lemma FirstLine(line: string, ending: string, rest: string)
    requires Plain(line, ending, false)
    ensures Lines(line + ending + rest) == [line] + Lines(rest)
  {
    var text := line + ending + rest;
    var n := |line| + |ending| - 1;
    assert text[n] == '\n';
    NewlineAt(text, n);
    assert text[n + 1..] == rest;
    if ending == "\n" {
      assert text[..n] == line;
    } else {
      assert text[..n] == line + "\r";
      assert (line + "\r")[..|line|] == line;
    }
    assert StripReturn(text[..n]) == line;
  }

  /** Whether `pattern` occurs at place `at`. */
  predicate OccursAt(text: string, pattern: string, at: nat) {
    at + |pattern| <= |text| && text[at..at + |pattern|] == pattern
  }

  /** The first place a pattern occurs at. */
  function Find(text: string, pattern: string): (found: Option<nat>)
    ensures found.Some? ==> OccursAt(text, pattern, found.value)
    ensures found.Some? ==> forall i :: 0 <= i < found.value ==> !OccursAt(text, pattern, i)
    ensures found.None? ==> forall i :: 0 <= i ==> !OccursAt(text, pattern, i)
  {
    FindFrom(text, pattern, 0)
  }

  function FindFrom(text: string, pattern: string, from: nat): (found: Option<nat>)
    requires from <= |text|
    ensures found.Some? ==> from <= found.value && OccursAt(text, pattern, found.value)
    ensures found.Some? ==> forall i :: from <= i < found.value ==> !OccursAt(text, pattern, i)
    ensures found.None? ==> forall i :: from <= i ==> !OccursAt(text, pattern, i)
    decreases |text| - from
  {
    if OccursAt(text, pattern, from) then Some(from)
    else if from == |text| then None
    else FindFrom(text, pattern, from + 1)
  }

  predicate Contains(text: string, pattern: string) {
    Find(text, pattern).Some?
  }

  lemma OccursContains(text: string, pattern: string, at: nat)
    requires OccursAt(text, pattern, at)
    ensures Contains(text, pattern)
  {
  }

  /** What `char::is_whitespace` accepts. */
  predicate Whitespace(c: char) {
    var n := c as int;
    || 9 <= n <= 13 || n == 0x20 || n == 0x85 || n == 0xA0 || n == 0x1680
    || 0x2000 <= n <= 0x200A || n == 0x2028 || n == 0x2029 || n == 0x202F || n == 0x205F || n == 0x3000
  }

  predicate Blank(text: string) {
    forall i :: 0 <= i < |text| ==> Whitespace(text[i])
  }

  function TrimEnd(text: string): string {
    if text != "" && Whitespace(text[|text| - 1]) then TrimEnd(text[..|text| - 1]) else text
  }

  function TrimStart(text: string): string {
    if text != "" && Whitespace(text[0]) then TrimStart(text[1..]) else text
  }

  lemma {:induction false} TrimEndBlank(text: string, blank: string)
    requires Blank(blank)
    ensures TrimEnd(text + blank) == TrimEnd(text)
  {
    if blank == "" {
      assert text + blank == text;
    } else {
      var n := |blank| - 1;
      assert (text + blank)[..|text + blank| - 1] == text + blank[..n];
      TrimEndBlank(text, blank[..n]);
    }
  }

  lemma {:induction false} TrimStartBlank(blank: string, text: string)
    requires Blank(blank)
    ensures TrimStart(blank + text) == TrimStart(text)
  {
    if blank == "" {
      assert blank + text == text;
    } else {
      assert (blank + text)[1..] == blank[1..] + text;
      TrimStartBlank(blank[1..], text);
    }
  }

  /** The length of the run of non-whitespace a text starts with. */
  function WordLength(text: string): (n: nat)
    ensures n <= |text|
  {
    if text == "" || Whitespace(text[0]) then 0 else 1 + WordLength(text[1..])
  }

  lemma {:induction false} TrimStartShorter(text: string)
    ensures |TrimStart(text)| <= |text|
    ensures TrimStart(text) != "" ==> !Whitespace(TrimStart(text)[0])
  {
    if text != "" && Whitespace(text[0]) { TrimStartShorter(text[1..]); }
  }

  /** A text's words, as `split_whitespace` yields them. */
  function Words(text: string): seq<string>
    decreases |text|
  {
    TrimStartShorter(text);
    var trimmed := TrimStart(text);
    if trimmed == "" then [] else
    var n := WordLength(trimmed);
    [trimmed[..n]] + Words(trimmed[n..])
  }

  predicate Word(word: string) {
    word != "" && forall i :: 0 <= i < |word| ==> !Whitespace(word[i])
  }

  lemma {:induction false} WordLengthOf(word: string, rest: string)
    requires (forall i :: 0 <= i < |word| ==> !Whitespace(word[i])) && (rest != "" ==> Whitespace(rest[0]))
    ensures WordLength(word + rest) == |word|
  {
    if word == "" {
      assert word + rest == rest;
    } else {
      assert (word + rest)[1..] == word[1..] + rest;
      WordLengthOf(word[1..], rest);
    }
  }

  lemma FirstWord(word: string, rest: string)
    requires Word(word) && (rest != "" ==> Whitespace(rest[0]))
    ensures Words(word + rest) == [word] + Words(rest)
  {
    var text := word + rest;
    WordLengthOf(word, rest);
    assert text[0] == word[0];
    assert TrimStart(text) == text;
    assert text[..|word|] == word && text[|word|..] == rest;
  }

  lemma {:induction false} WordsBlank(blank: string, text: string)
    requires Blank(blank)
    ensures Words(blank + text) == Words(text)
  {
    TrimStartBlank(blank, text);
    TrimStartShorter(text);
  }

  predicate HasSuffix(text: string, suffix: string) {
    |suffix| <= |text| && text[|text| - |suffix|..] == suffix
  }
}
