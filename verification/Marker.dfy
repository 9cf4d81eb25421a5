/**
 The marker on a line: the keyword, whitespace, a declaration key of two words, and then nothing but
 whitespace and one comment closer. Whatever precedes the keyword is ignored.
 */
module Marker {
  import opened Common
  import opened Text

  const BEGIN := "conseqa:begin"
  const END := "conseqa:end"

  datatype Edge = Begin | End

  datatype Malformed = NoKey | Unseparated | Trailing

  /** A marker found on a line; `key` is its key as written, when it has one. */
  datatype Mark = Mark(edge: Edge, key: Option<string>, malformed: Option<Malformed>)

  function Keyword(edge: Edge): string {
    if edge.Begin? then BEGIN else END
  }

  /** The keyword that occurs first on the line, and its place. */
  function FirstKeyword(line: string): Option<(nat, Edge)> {
    match (Find(line, BEGIN), Find(line, END))
    case (None, None) => None
    case (Some(b), None) => Some((b, Begin))
    case (None, Some(e)) => Some((e, End))
    case (Some(b), Some(e)) => if e < b then Some((e, End)) else Some((b, Begin))
  }

  /** What precedes the closer, if there is one, without trailing whitespace. */
  function StripCloser(text: string): string {
    var body := TrimEnd(text);
    if HasSuffix(body, "*/") then TrimEnd(body[..|body| - 2])
    else if HasSuffix(body, "-->") then TrimEnd(body[..|body| - 3])
    else body
  }

  /** What a marker's keyword is followed by, read as a key. */
  function ReadKey(edge: Edge, body: string): Mark {
    if body == "" then Mark(edge, None, Some(NoKey))
    else if !Whitespace(body[0]) then Mark(edge, None, Some(Unseparated))
    else
      var text := TrimStart(body);
      var words := Words(text);
      if |words| <= 2 then Mark(edge, Some(text), None)
      else Mark(edge, Some(words[0] + " " + words[1]), Some(Trailing))
  }

  /** The marker on a line, if a keyword appears there. */
  function MarkOf(line: string): Option<Mark> {
    match FirstKeyword(line)
    case None => None
    case Some((at, edge)) =>
      assert at + |Keyword(edge)| <= |line| by { KeywordFits(line); }
      Some(ReadKey(edge, StripCloser(line[at + |Keyword(edge)|..])))
  }

  lemma KeywordFits(line: string)
    ensures FirstKeyword(line).Some? ==>
              OccursAt(line, Keyword(FirstKeyword(line).value.1), FirstKeyword(line).value.0)
  {
  }

  /** A marker always has a key unless it is malformed: the scan never meets one with neither. */
  lemma KeyOrMalformed(line: string)
    ensures MarkOf(line).Some? ==> MarkOf(line).value.key.Some? || MarkOf(line).value.malformed.Some?
  {
  }

  /** A line without the keywords' common start holds no marker, so such a file is passed over. */
  lemma NoStartNoMark(line: string)
    requires !Contains(line, "conseqa:")
    ensures MarkOf(line) == None
  {
    forall i: nat | OccursAt(line, BEGIN, i) ensures false {
      assert line[i..i + |"conseqa:"|] == line[i..i + |BEGIN|][..|"conseqa:"|] == "conseqa:";
      OccursContains(line, "conseqa:", i);
    }
    forall i: nat | OccursAt(line, END, i) ensures false {
      assert line[i..i + |"conseqa:"|] == line[i..i + |END|][..|"conseqa:"|] == "conseqa:";
      OccursContains(line, "conseqa:", i);
    }
  }

  predicate Closer(closer: string) {
    closer == "" || closer == "*/" || closer == "-->"
  }

  /** A word that would not itself be taken for a comment closer. */
  predicate Unclosed(word: string) {
    !HasSuffix(word, "*/") && !HasSuffix(word, "-->")
  }

  /** A keyword's first character is nowhere else in it, so no keyword overlaps another. */
  lemma NoOverlap(leader: string, edge: Edge, rest: string, other: Edge, at: nat)
    requires !Contains(leader, Keyword(other)) && at < |leader|
    ensures !OccursAt(leader + Keyword(edge) + rest, Keyword(other), at)
  {
    var text := leader + Keyword(edge) + rest;
    var pattern := Keyword(other);
    if OccursAt(text, pattern, at) {
      if at + |pattern| <= |leader| {
        assert leader[at..at + |pattern|] == text[at..at + |pattern|];
        OccursContains(leader, pattern, at);
      } else {
        var k := |leader| - at;
        assert pattern[k] == text[at..at + |pattern|][k] == text[|leader|] == Keyword(edge)[0] == 'c';
        NoSecondC(other, k);
      }
    }
  }

  lemma NoSecondC(edge: Edge, k: nat)
    requires 0 < k < |Keyword(edge)|
    ensures Keyword(edge)[k] != 'c'
  {
  }

  lemma KeywordAfterLeader(leader: string, edge: Edge, rest: string)
    requires !Contains(leader, BEGIN) && !Contains(leader, END)
    ensures FirstKeyword(leader + Keyword(edge) + rest) == Some((|leader|, edge))
  {
    hide OccursAt;
    var text := leader + Keyword(edge) + rest;
    OneKeyword(leader, edge, rest);
    forall at, other | 0 <= at < |leader| ensures !OccursAt(text, Keyword(other), at) {
      NoOverlap(leader, edge, rest, other, at);
    }
    assert forall at :: 0 <= at < |leader| ==> !OccursAt(text, Keyword(Begin), at);
    assert forall at :: 0 <= at < |leader| ==> !OccursAt(text, Keyword(End), at);
  }

  lemma OneKeyword(leader: string, edge: Edge, rest: string)
    ensures OccursAt(leader + Keyword(edge) + rest, Keyword(edge), |leader|)
    ensures !OccursAt(leader + Keyword(edge) + rest, Keyword(if edge.Begin? then End else Begin), |leader|)
  {
    var text := leader + Keyword(edge) + rest;
    var other := if edge.Begin? then End else Begin;
    assert text[|leader|..|leader| + |Keyword(edge)|] == Keyword(edge);
    assert text[|leader| + 8] == Keyword(edge)[8] != Keyword(other)[8];
    if |leader| + |Keyword(other)| <= |text| {
      assert text[|leader|..|leader| + |Keyword(other)|][8] == text[|leader| + 8];
    }
  }

  lemma SuffixOf(text: string, suffix: string)
    ensures HasSuffix(text + suffix, suffix) && (text + suffix)[..|text|] == text
  {
  }

  lemma TrimEndWord(text: string, word: string)
    requires Word(word)
    ensures TrimEnd(text + word) == text + word
  {
  }

  /** Stripping the closer gives back the text up to its last word. */
  lemma CloserStripped(text: string, word: string, gap: string, closer: string, tail: string)
    requires Word(word) && Blank(gap) && Closer(closer) && Blank(tail)
    requires closer == "" ==> gap == "" && !HasSuffix(text + word, "*/") && !HasSuffix(text + word, "-->")
    ensures StripCloser(text + word + gap + closer + tail) == text + word
  {
    var inner := text + word + gap;
    TrimEndBlank(inner + closer, tail);
    TrimEndWord(text, word);
    if closer == "" {
      assert inner + closer == text + word;
    } else {
      TrimEndWord(inner, closer);
      SuffixOf(inner, closer);
      TrimEndBlank(text + word, gap);
      if closer == "-->" {
        assert !HasSuffix(inner + closer, "*/") by { assert (inner + closer)[|inner + closer| - 1] == '>'; }
      }
    }
  }

  /** So is a key's, whose last word follows a space and is not taken for a closer. */
  lemma KeyStripped(text: string, word: string, gap: string, closer: string, tail: string)
    requires Word(word) && Blank(gap) && Closer(closer) && Blank(tail) && text != "" && text[|text| - 1] == ' '
    requires closer == "" ==> gap == "" && Unclosed(word)
    ensures StripCloser(text + word + gap + closer + tail) == text + word
  {
    UnclosedText(text, word, "*/");
    UnclosedText(text, word, "-->");
    hide HasSuffix, StripCloser, Word, Blank;
    CloserStripped(text, word, gap, closer, tail);
  }

  /** The body of a key: a blank, the kind, a gap and the ids. */
  lemma KeyRead(edge: Edge, blank: string, kind: string, ids: string)
    requires blank != "" && Blank(blank) && Word(kind) && Word(ids)
    ensures ReadKey(edge, blank + kind + " " + ids) == Mark(edge, Some(kind + " " + ids), None)
  {
    var key := kind + " " + ids;
    assert blank + kind + " " + ids == blank + key;
    TrimStartBlank(blank, key);
    assert Blank(" ");
    assert key[0] == kind[0] && !Whitespace(key[0]);
    assert TrimStart(key) == key;
    assert key == kind + (" " + ids);
    FirstWord(kind, " " + ids);
    WordsBlank(" ", ids);
    FirstWord(ids, "");
    assert ids + "" == ids;
    assert Words("") == [];
  }

  /**
   A marker written in any comment style is read back: whatever the leader, the space around the key,
   and the closer, even one that touches the key.
   */
  lemma WrittenIsRead(leader: string, edge: Edge, blank: string, kind: string, ids: string, gap: string,
      closer: string, tail: string)
    requires !Contains(leader, BEGIN) && !Contains(leader, END)
    requires blank != "" && Blank(blank) && Word(kind) && Word(ids)
    requires Blank(gap) && Closer(closer) && Blank(tail)
    requires closer == "" ==> gap == "" && Unclosed(ids)
    ensures MarkOf(leader + Keyword(edge) + (blank + kind + " " + ids + gap + closer + tail))
            == Some(Mark(edge, Some(kind + " " + ids), None))
  {
    var text := blank + kind + " ";
    var rest := text + ids + gap + closer + tail;
    KeywordAfterLeader(leader, edge, rest);
    assert (leader + Keyword(edge) + rest)[|leader| + |Keyword(edge)|..] == rest;
    KeyStripped(text, ids, gap, closer, tail);
    KeyRead(edge, blank, kind, ids);
  }

  lemma FindIs(text: string, pattern: string, at: nat)
    requires OccursAt(text, pattern, at) && forall i :: 0 <= i < at ==> !OccursAt(text, pattern, i)
    ensures Find(text, pattern) == Some(at)
  {
    hide OccursAt;
  }

  lemma FindNone(text: string, pattern: string)
    requires forall i: nat :: !OccursAt(text, pattern, i)
    ensures Find(text, pattern) == None
  {
    hide OccursAt;
  }

  lemma MovedOccurs(blank: string, line: string, pattern: string, at: nat)
    ensures OccursAt(blank + line, pattern, |blank| + at) <==> OccursAt(line, pattern, at)
  {
    if at + |pattern| <= |line| {
      assert (blank + line)[|blank| + at..|blank| + at + |pattern|] == line[at..at + |pattern|];
    }
  }

  lemma NotInBlank(blank: string, line: string, pattern: string, at: nat)
    requires Blank(blank) && pattern != "" && !Whitespace(pattern[0]) && at < |blank|
    ensures !OccursAt(blank + line, pattern, at)
  {
    if at + |pattern| <= |blank + line| {
      assert (blank + line)[at..at + |pattern|][0] == blank[at];
    }
  }

  function FoundBeyond(found: Option<nat>, distance: nat): Option<nat> {
    if found.None? then None else Some(distance + found.value)
  }

  /** What begins with no whitespace is found where it was, moved by the blank put before. */
  lemma MovedFind(blank: string, line: string, pattern: string)
    requires Blank(blank) && pattern != "" && !Whitespace(pattern[0])
    ensures Find(blank + line, pattern) == FoundBeyond(Find(line, pattern), |blank|)
  {
    hide OccursAt, Blank;
    var text, found := blank + line, Find(line, pattern);
    forall i: nat | i < |blank| ensures !OccursAt(text, pattern, i) {
      NotInBlank(blank, line, pattern, i);
    }
    forall i: nat | i >= |blank| ensures OccursAt(text, pattern, i) <==> OccursAt(line, pattern, i - |blank|) {
      MovedOccurs(blank, line, pattern, i - |blank|);
    }
    if found.Some? {
      assert OccursAt(line, pattern, found.value);
      FindIs(text, pattern, |blank| + found.value);
    } else {
      FindNone(text, pattern);
    }
  }

  lemma MovedKeyword(blank: string, line: string)
    requires Blank(blank)
    ensures FirstKeyword(blank + line) ==
            if FirstKeyword(line).None? then None
            else Some((|blank| + FirstKeyword(line).value.0, FirstKeyword(line).value.1))
  {
    hide Find, Blank;
    MovedFind(blank, line, BEGIN);
    MovedFind(blank, line, END);
  }

  /** Indenting a line changes nothing of the marker on it, and adds none. */
  lemma Indented(blank: string, line: string)
    requires Blank(blank)
    ensures MarkOf(blank + line) == MarkOf(line)
  {
    hide FirstKeyword, StripCloser, ReadKey, Blank, Keyword;
    MovedKeyword(blank, line);
    if FirstKeyword(line).Some? {
      KeywordFits(line);
      KeywordFits(blank + line);
      var (at, edge) := FirstKeyword(line).value;
      assert (blank + line)[|blank| + at + |Keyword(edge)|..] == line[at + |Keyword(edge)|..];
    }
  }

  /** So lines that differ in indentation alone hold the same marker. */
  lemma SameMark(line: string, other: string)
    requires TrimStart(line) == TrimStart(other)
    ensures MarkOf(line) == MarkOf(other)
  {
    var a := IndentationOf(line);
    var b := IndentationOf(other);
    Indented(a, TrimStart(line));
    Indented(b, TrimStart(other));
  }

  lemma {:induction false} IndentationOf(line: string) returns (blank: string)
    ensures Blank(blank) && line == blank + TrimStart(line)
  {
    blank := "";
    if line != "" && Whitespace(line[0]) {
      var rest := IndentationOf(line[1..]);
      blank := [line[0]] + rest;
      assert line == [line[0]] + line[1..];
    }
  }

  /** A closer at the end of a text whose last word follows a space is at the end of that word. */
  lemma UnclosedText(text: string, word: string, closer: string)
    requires text != "" && text[|text| - 1] == ' '
    requires forall i :: 0 <= i < |closer| ==> closer[i] != ' '
    ensures HasSuffix(text + word, closer) ==> HasSuffix(word, closer)
  {
    if HasSuffix(text + word, closer) { SuffixInWord(text, word, closer); }
  }

  lemma SuffixInWord(text: string, word: string, suffix: string)
    requires text != "" && text[|text| - 1] == ' ' && HasSuffix(text + word, suffix)
    requires forall i :: 0 <= i < |suffix| ==> suffix[i] != ' '
    ensures HasSuffix(word, suffix)
  {
    if |word| < |suffix| {
      SpaceInSuffix(text, word, suffix);
    } else {
      assert word[|word| - |suffix|..] == (text + word)[|text + word| - |suffix|..];
    }
  }

  lemma SpaceInSuffix(text: string, word: string, suffix: string)
    requires text != "" && text[|text| - 1] == ' ' && HasSuffix(text + word, suffix) && |word| < |suffix|
    ensures suffix[|suffix| - |word| - 1] == ' '
  {
    assert (text + word)[|text + word| - |suffix|..][|suffix| - |word| - 1] == text[|text| - 1];
  }
}
