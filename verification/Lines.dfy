/** How a document is read line by line: line breaks, markdown headings, and sentences. */
module Lines {
  import opened Outcomes
  import opened Text

  /** A line of the document: a markdown heading, or the sentences of any other line (none for an empty line). */
  datatype Line = Heading(level: nat, title: string) | Body(units: seq<string>)

  // ---------------------------------------------------------------- lines

  /** The characters at which str.splitlines breaks a line. */
  predicate EndsLine(c: char) {
    (c as int) in {10, 11, 12, 13, 28, 29, 30, 0x85, 0x2028, 0x2029}
  }

  function LineLength(s: string): (k: nat)
    ensures k <= |s| && (k < |s| ==> EndsLine(s[k]))
    ensures forall i :: 0 <= i < k ==> !EndsLine(s[i])
  {
    if s == "" || EndsLine(s[0]) then 0
    else
      var k := LineLength(s[1..]);
      assert forall i :: 1 <= i < k + 1 ==> s[i] == s[1..][i - 1];
      1 + k
  }

  /** What is left behind a line break; a carriage return takes the line feed behind it along. */
  function AfterBreak(s: string): (r: string)
    requires s != ""
    ensures |r| < |s|
  {
    if |s| > 1 && s[0] == '\r' && s[1] == '\n' then s[2..] else s[1..]
  }

  predicate OnOneLine(s: string) {
    forall c :: c in s ==> !EndsLine(c)
  }

  function SplitLines(text: string): (lines: seq<string>)
    ensures forall l :: l in lines ==> OnOneLine(l)
    decreases |text|
  {
    if text == "" then []
    else
      var k := LineLength(text);
      if k == |text| then [text] else [text[..k]] + SplitLines(AfterBreak(text[k..]))
  }

  // ---------------------------------------------------------------- lines, written and read

  /** These lines, each ended by a line break. */
  function Written(lines: seq<string>, lineBreak: string): string {
    if lines == [] then "" else lines[0] + lineBreak + Written(lines[1..], lineBreak)
  }

  lemma {:induction false} LengthOfLine(line: string, rest: string)
    requires OnOneLine(line) && rest != "" && EndsLine(rest[0])
    ensures LineLength(line + rest) == |line|
  {
    if line == "" {
      assert line + rest == rest;
    } else {
      assert line[0] in line && (line + rest)[1..] == line[1..] + rest;
      LengthOfLine(line[1..], rest);
    }
  }

  lemma {:induction false} LineRead(line: string, lineBreak: string, rest: string)
    requires OnOneLine(line) && lineBreak in {"\n", "\r\n"}
    ensures SplitLines(line + lineBreak + rest) == [line] + SplitLines(rest)
  {
    var text, behind := line + lineBreak + rest, lineBreak + rest;
    assert text == line + behind;
    LengthOfLine(line, behind);
    assert text[..|line|] == line && text[|line|..] == behind;
    assert AfterBreak(behind) == behind[|lineBreak|..] == rest;
  }

  /** Lines that were written with either line break are read back, empty ones included. */
  lemma {:induction false} LinesReadBack(lines: seq<string>, lineBreak: string)
    requires lineBreak in {"\n", "\r\n"} && forall l :: l in lines ==> OnOneLine(l)
    ensures SplitLines(Written(lines, lineBreak)) == lines
  {
    if lines != [] {
      assert lines[0] in lines;
      LinesReadBack(lines[1..], lineBreak);
      LineRead(lines[0], lineBreak, Written(lines[1..], lineBreak));
    }
  }

  // ---------------------------------------------------------------- headings

  function Hashes(s: string): (k: nat)
    ensures k <= |s| && (k < |s| ==> s[k] != '#')
  {
    if s == "" || s[0] != '#' then 0 else 1 + Hashes(s[1..])
  }

  function WithoutHashes(s: string): (r: string)
    ensures |r| <= |s| && r == s[..|r|]
  {
    if s != "" && s[|s| - 1] == '#' then WithoutHashes(s[..|s| - 1]) else s
  }

  /** The title in front of closing marks, at least one character of it. */
  function Unclosed(s: string): (title: string)
    requires s != "" && !IsSpace(s[0])
    ensures title != "" && !IsSpace(title[0]) && !IsSpace(title[|title| - 1])
  {
    var r := StripRight(WithoutHashes(s));
    if r == "" then [s[0]] else r
  }

  /** One to six marks, white space, a title: read from a line stripped on both sides. */
  function ReadHeading(s: string): (heading: Option<Line>)
    ensures heading.Some? ==> heading.value.Heading? && 1 <= heading.value.level <= 6
    ensures heading.Some? ==> heading.value.title != "" && Trimmed(heading.value.title)
  {
    var k := Hashes(s);
    if 1 <= k <= 6 && k < |s| && IsSpace(s[k]) then
      var rest := StripLeft(s[k..]);
      if rest == "" then None else Some(Heading(k, Unclosed(rest)))
    else None
  }

  // ---------------------------------------------------------------- a heading, written and read

  function Marks(level: nat): (marks: string)
    ensures |marks| == level
  {
    if level == 0 then "" else "#" + Marks(level - 1)
  }

  lemma {:induction false} MarksCounted(level: nat, rest: string)
    requires rest == "" || rest[0] != '#'
    ensures Hashes(Marks(level) + rest) == level
    ensures (Marks(level) + rest)[level..] == rest
  {
    if level == 0 {
      assert "" + rest == rest;
    } else {
      MarksCounted(level - 1, rest);
      assert (Marks(level) + rest)[1..] == Marks(level - 1) + rest;
    }
  }

  lemma {:induction false} TitleKept(title: string)
    requires title != "" && Trimmed(title)
    ensures Unclosed(title) == title <==> title[|title| - 1] != '#' || title == "#"
  {
    if title[|title| - 1] == '#' {
      assert |WithoutHashes(title)| < |title|;
    } else {
      assert WithoutHashes(title) == title;
    }
  }

  lemma {:induction false} StrippedBehindSpace(rest: string, title: string)
    requires rest == " " + title && Trimmed(title)
    ensures rest != "" && rest[0] == ' ' && StripLeft(rest) == title
  {
    assert rest[1..] == title;
  }

  lemma {:induction false} HeadingRead(s: string, level: nat, rest: string, title: string)
    requires 1 <= level <= 6 && Hashes(s) == level <= |s| && s[level..] == rest
    requires rest != "" && rest[0] == ' ' && StripLeft(rest) == title && title != ""
    ensures ReadHeading(s) == Some(Heading(level, Unclosed(title)))
  {
    assert s[level] == rest[0];
  }

  /** A heading written with so many marks reads back, exactly unless its title ends in a mark and is more than that. */
  lemma {:induction false} HeadingReadsBack(level: nat, title: string)
    requires 1 <= level <= 6 && title != "" && Trimmed(title)
    ensures ReadHeading(Marks(level) + (" " + title)) == Some(Heading(level, title))
      <==> title[|title| - 1] != '#' || title == "#"
  {
    MarksCounted(level, " " + title);
    StrippedBehindSpace(" " + title, title);
    HeadingRead(Marks(level) + (" " + title), level, " " + title, title);
    TitleKept(title);
  }

  // ---------------------------------------------------------------- sentences

  predicate IsTerminator(c: char) {
    c == '.' || c == '!' || c == '?' || (c as int) in {0x61f, 0x6d4, 0x2026}
  }

  /** Space, tab and the space that does not break. */
  predicate IsGap(c: char) {
    c == ' ' || c == '\t' || (c as int) == 0xa0
  }

  /** Every run of gaps becomes one space. */
  function CollapseGaps(s: string): (r: string)
    ensures r == "" <==> s == ""
    ensures s != "" ==> (IsSpace(r[0]) <==> IsSpace(s[0]))
  {
    if s == "" then ""
    else if !IsGap(s[0]) then [s[0]] + CollapseGaps(s[1..])
    else if |s| > 1 && IsGap(s[1]) then CollapseGaps(s[1..])
    else " " + CollapseGaps(s[1..])
  }

  /** The first place with white space behind the end of a sentence; the length when there is none. */
  function FirstBreak(s: string): (k: nat)
    ensures k <= |s| && (k < |s| ==> k > 0 && IsTerminator(s[k - 1]) && IsSpace(s[k]))
  {
    if |s| < 2 then |s|
    else if IsTerminator(s[0]) && IsSpace(s[1]) then 1
    else 1 + FirstBreak(s[1..])
  }

  /** re.split at the white space behind the end of a sentence. */
  function Pieces(s: string): (pieces: seq<string>)
    ensures pieces != []
    decreases |s|
  {
    var k := FirstBreak(s);
    if k == |s| then [s] else [s[..k]] + Pieces(StripLeft(s[k..]))
  }

  function SplitSentences(line: string): seq<string> {
    var cleaned := Strip(CollapseGaps(line));
    if cleaned == "" then [] else Mapped(Strip, NonBlank(Pieces(cleaned)))
  }

  // ---------------------------------------------------------------- what a sentence is

  /** Does white space stand here, behind the end of a sentence? */
  predicate BreaksAt(s: string, j: int)
    requires 0 < j < |s|
  {
    IsTerminator(s[j - 1]) && IsSpace(s[j])
  }

  predicate Unbroken(s: string) {
    forall j :: 0 < j < |s| ==> !BreaksAt(s, j)
  }

  /** Something stripped that breaks nowhere. */
  predicate IsSentence(s: string) {
    s != "" && Trimmed(s) && Unbroken(s)
  }

  predicate Ended(s: string) {
    s != "" && IsTerminator(s[|s| - 1])
  }

  /** Sentences, and all but the last of them ended. */
  predicate AreSentences(pieces: seq<string>) {
    (forall p :: p in pieces ==> IsSentence(p)) &&
    forall i :: 0 <= i < |pieces| - 1 ==> Ended(pieces[i])
  }

  lemma {:induction false} UnbrokenMore(c: char, s: string)
    requires Unbroken(s) && (s == "" || !(IsTerminator(c) && IsSpace(s[0])))
    ensures Unbroken([c] + s)
  {
    var all := [c] + s;
    forall j | 0 < j < |all| ensures !BreaksAt(all, j) {
      if j > 1 {
        assert !BreaksAt(s, j - 1);
      }
    }
  }

  lemma {:induction false} NoEarlierBreak(s: string)
    ensures Unbroken(s[..FirstBreak(s)])
  {
    var k := FirstBreak(s);
    if k >= 2 {
      NoEarlierBreak(s[1..]);
      assert s[..k] == [s[0]] + s[1..][..k - 1];
      UnbrokenMore(s[0], s[1..][..k - 1]);
    }
  }

  lemma {:induction false} SentencesMore(first: string, rest: seq<string>)
    requires IsSentence(first) && Ended(first) && AreSentences(rest)
    ensures AreSentences([first] + rest)
  {
    var all := [first] + rest;
    forall i | 0 <= i < |all| - 1 ensures Ended(all[i]) {
      if i > 0 {
        assert all[i] == rest[i - 1];
      }
    }
  }

  lemma {:induction false} UpToBreak(s: string, first: string)
    requires Trimmed(s) && FirstBreak(s) < |s| && first == s[..FirstBreak(s)]
    ensures IsSentence(first) && Ended(first)
  {
    NoEarlierBreak(s);
    assert first[0] == s[0] && first[|first| - 1] == s[|first| - 1];
  }

  lemma {:induction false} LastOf(s: string, k: nat)
    requires k < |s|
    ensures s[k..] != "" && s[k..][|s[k..]| - 1] == s[|s| - 1] && |s[k..]| == |s| - k
  {
  }

  lemma {:induction false} BehindBreak(s: string)
    requires s != "" && !IsSpace(s[|s| - 1])
    ensures StripLeft(s) != "" && Trimmed(StripLeft(s)) && |StripLeft(s)| <= |s|
  {
    if IsSpace(s[0]) {
      LastOf(s, 1);
      BehindBreak(s[1..]);
    } else {
      assert StripLeft(s) == s;
    }
  }

  lemma {:induction false} PiecesAreSentences(s: string)
    requires s != "" && Trimmed(s)
    ensures AreSentences(Pieces(s))
    decreases |s|
  {
    var k := FirstBreak(s);
    if k == |s| {
      NoEarlierBreak(s);
      assert s[..k] == s;
    } else {
      UpToBreak(s, s[..k]);
      LastOf(s, k);
      BehindBreak(s[k..]);
      PiecesAreSentences(StripLeft(s[k..]));
      SentencesMore(s[..k], Pieces(StripLeft(s[k..])));
    }
  }

  lemma {:induction false} NoneIsBlank(pieces: seq<string>)
    requires forall p :: p in pieces ==> IsSentence(p)
    ensures NonBlank(pieces) == pieces
  {
    if pieces != [] {
      var first := pieces[0];
      assert IsSentence(first) && !Blank(first) by {
        assert first in pieces && !IsSpace(first[0]);
      }
      NoneIsBlank(pieces[1..]);
    }
  }

  lemma {:induction false} NothingToStrip(pieces: seq<string>)
    requires forall p :: p in pieces ==> IsSentence(p)
    ensures Mapped(Strip, pieces) == pieces
  {
    forall i | 0 <= i < |pieces| ensures Mapped(Strip, pieces)[i] == pieces[i] {
      assert IsSentence(pieces[i]);
      StripOfTrimmed(pieces[i]);
    }
  }

  /** A line is cut exactly behind the ends of its sentences: none of them breaks within itself, and all but the last
      are ended. */
  lemma {:induction false} LinesSplitAtSentenceEnds(line: string)
    ensures AreSentences(SplitSentences(line))
  {
    var cleaned := Strip(CollapseGaps(line));
    StripTrims(CollapseGaps(line));
    if cleaned != "" {
      PiecesAreSentences(cleaned);
      NoneIsBlank(Pieces(cleaned));
      NothingToStrip(Pieces(cleaned));
    }
  }

  // ---------------------------------------------------------------- documents

  function ReadLine(raw: string): Line {
    var heading := ReadHeading(Strip(raw));
    if heading.Some? then heading.value
    else if Strip(raw) == "" then Body([])
    else Body(SplitSentences(StripRight(raw)))
  }

  function ReadLines(raws: seq<string>): seq<Line> {
    Mapped(ReadLine, raws)
  }

  function ReadDocument(text: string): seq<Line> {
    ReadLines(SplitLines(text))
  }
}
