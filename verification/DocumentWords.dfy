/** From the text of a document to its chunks no word is lost, invented or moved: reading lines and sentences, cutting
    into sections and planning the chunks keep the words in order. */
module DocumentWords {
  import opened Lines
  import opened Text
  import opened TokenEstimate
  import opened Chunking
  import ChunkerGuarantees

  // ---------------------------------------------------------------- lines

  lemma {:induction false} BreakIsSpace(c: char)
    requires EndsLine(c)
    ensures IsSpace(c)
  {
  }

  lemma {:induction false} WordsBehindBreak(s: string)
    requires s != "" && EndsLine(s[0])
    ensures Words(AfterBreak(s)) == Words(s)
  {
    BreakIsSpace(s[0]);
    if |s| > 1 && s[0] == '\r' && s[1] == '\n' {
      assert s[1..][0] == '\n' && s[1..][1..] == s[2..];
    }
  }

  lemma {:induction false} OnlyText(s: string)
    ensures WordsIn([s]) == Words(s)
  {
    WordsInMore(s, []);
    assert [s] + [] == [s];
  }

  /** A text cut at white space: its words are those of the first part and of what the rest was cut into. */
  lemma {:induction false} CutAtSpace(first: string, rest: string, more: seq<string>)
    requires rest != "" && IsSpace(rest[0]) && WordsIn(more) == Words(rest)
    ensures WordsIn([first] + more) == Words(first + rest)
  {
    WordsApart(first, rest);
    WordsInMore(first, more);
  }

  lemma {:induction false} Halves(s: string, k: nat)
    requires k < |s|
    ensures s == s[..k] + s[k..] && s[k..] != "" && s[k..][0] == s[k]
  {
  }

  lemma {:induction false} LineBehind(text: string, k: nat)
    requires k == LineLength(text) && k < |text|
    ensures SplitLines(text) == [text[..k]] + SplitLines(AfterBreak(text[k..]))
  {
  }

  /** The rest of a text behind its first line: the break, and then other lines. */
  lemma {:induction false} CutAtBreak(first: string, rest: string)
    requires rest != "" && EndsLine(rest[0]) && WordsIn(SplitLines(AfterBreak(rest))) == Words(AfterBreak(rest))
    ensures WordsIn([first] + SplitLines(AfterBreak(rest))) == Words(first + rest)
  {
    BreakIsSpace(rest[0]);
    WordsBehindBreak(rest);
    CutAtSpace(first, rest, SplitLines(AfterBreak(rest)));
  }

  lemma {:induction false} LinesKeepWords(text: string)
    ensures WordsIn(SplitLines(text)) == Words(text)
    decreases |text|
  {
    if text != "" {
      var k := LineLength(text);
      if k == |text| {
        OnlyText(text);
      } else {
        Halves(text, k);
        LineBehind(text, k);
        LinesKeepWords(AfterBreak(text[k..]));
        CutAtBreak(text[..k], text[k..]);
      }
    }
  }

  // ---------------------------------------------------------------- sentences

  lemma {:induction false} GapIsSpace(c: char)
    requires IsGap(c)
    ensures IsSpace(c)
  {
  }

  /** A character that is not white space in front of a text: a word of its own, or the first letter of the next. */
  lemma {:induction false} LetterInFront(c: char, s: string)
    requires !IsSpace(c)
    ensures Words([c] + s) ==
      if s == "" || IsSpace(s[0]) then [[c]] + Words(s) else [[c] + Words(s)[0]] + Words(s)[1..]
    ensures s != "" && !IsSpace(s[0]) ==> Words(s) != []
  {
    var all, k := [c] + s, WordLength(s);
    assert all[1..] == s;
    assert WordLength(all) == 1 + k;
    assert all[..1 + k] == [c] + s[..k] && all[1 + k..] == s[k..];
    if s == "" || IsSpace(s[0]) {
      assert k == 0 && s[..0] == "" && s[0..] == s;
      assert [c] + "" == [c];
    }
  }

  lemma {:induction false} SameWordsInFront(c: char, a: string, b: string)
    requires Words(a) == Words(b) && (a == "" <==> b == "") && (a != "" ==> (IsSpace(a[0]) <==> IsSpace(b[0])))
    ensures Words([c] + a) == Words([c] + b)
  {
    if IsSpace(c) {
      SpaceThenText(c, a);
      SpaceThenText(c, b);
    } else {
      LetterInFront(c, a);
      LetterInFront(c, b);
    }
  }

  lemma {:induction false} CollapsedGapsKeepWords(s: string)
    ensures Words(CollapseGaps(s)) == Words(s)
  {
    if s != "" {
      var rest := s[1..];
      assert s == [s[0]] + rest;
      CollapsedGapsKeepWords(rest);
      if !IsGap(s[0]) {
        SameWordsInFront(s[0], CollapseGaps(rest), rest);
      } else {
        GapIsSpace(s[0]);
        SpaceThenText(s[0], rest);
        SpaceThenText(' ', CollapseGaps(rest));
      }
    }
  }

  lemma {:induction false} PieceBehind(s: string, k: nat)
    requires k == FirstBreak(s) && k < |s|
    ensures Pieces(s) == [s[..k]] + Pieces(StripLeft(s[k..])) && IsSpace(s[k])
    ensures |StripLeft(s[k..])| < |s|
  {
  }

  lemma {:induction false} PiecesKeepWords(s: string)
    ensures WordsIn(Pieces(s)) == Words(s)
    decreases |s|
  {
    var k := FirstBreak(s);
    if k == |s| {
      OnlyText(s);
    } else {
      Halves(s, k);
      PieceBehind(s, k);
      PiecesKeepWords(StripLeft(s[k..]));
      WordsOfStripLeft(s[k..]);
      CutAtSpace(s[..k], s[k..], Pieces(StripLeft(s[k..])));
    }
  }

  lemma {:induction false} StrippedKeepWords(parts: seq<string>)
    ensures WordsIn(Mapped(Strip, parts)) == WordsIn(parts)
  {
    if parts != [] {
      var first, rest := parts[0], parts[1..];
      assert parts == [first] + rest;
      MappedMore(Strip, first, rest);
      StrippedKeepWords(rest);
      WordsOfStrip(first);
      WordsInMore(Strip(first), Mapped(Strip, rest));
      WordsInMore(first, rest);
    }
  }

  lemma {:induction false} SentencesOf(cleaned: string)
    ensures WordsIn(Mapped(Strip, NonBlank(Pieces(cleaned)))) == Words(cleaned)
  {
    StrippedKeepWords(NonBlank(Pieces(cleaned)));
    WordsOfNonBlank(Pieces(cleaned));
    PiecesKeepWords(cleaned);
  }

  /** The sentences of a line hold its words, in order. */
  lemma {:induction false} SentencesKeepWords(line: string)
    ensures WordsIn(SplitSentences(line)) == Words(line)
  {
    var cleaned := Strip(CollapseGaps(line));
    WordsOfStrip(CollapseGaps(line));
    CollapsedGapsKeepWords(line);
    if cleaned != "" {
      SentencesOf(cleaned);
    }
  }

  // ---------------------------------------------------------------- documents

  /** The lines that are no headings. */
  function BodyLines(raws: seq<string>): seq<string> {
    if raws == [] then []
    else (if ReadLine(raws[0]).Heading? then [] else [raws[0]]) + BodyLines(raws[1..])
  }

  lemma {:induction false} BodyRead(raw: string)
    requires ReadLine(raw).Body?
    ensures ReadLine(raw).units == if Strip(raw) == "" then [] else SplitSentences(StripRight(raw))
  {
  }

  lemma {:induction false} NothingRead(raw: string)
    requires Strip(raw) == ""
    ensures Words(raw) == []
  {
    StripTrims(raw);
    BlankHasNoWords(raw);
  }

  lemma {:induction false} LineUnits(raw: string)
    requires ReadLine(raw).Body?
    ensures WordsIn(ReadLine(raw).units) == Words(raw)
  {
    BodyRead(raw);
    if Strip(raw) == "" {
      NothingRead(raw);
    } else {
      SentencesKeepWords(StripRight(raw));
      WordsOfStripRight(raw);
    }
  }

  lemma {:induction false} WordsInAppend(a: seq<string>, b: seq<string>)
    ensures WordsIn(a + b) == WordsIn(a) + WordsIn(b)
  {
    if a == [] {
      assert a + b == b;
    } else {
      assert (a + b)[0] == a[0] && (a + b)[1..] == a[1..] + b;
      WordsInAppend(a[1..], b);
    }
  }

  lemma {:induction false} UnitsOfMore(line: Line, rest: seq<Line>)
    ensures UnitsOf([line] + rest) == if line.Body? then line.units + UnitsOf(rest) else UnitsOf(rest)
  {
    assert ([line] + rest)[1..] == rest;
  }

  lemma {:induction false} BodyLinesMore(raw: string, rest: seq<string>)
    ensures BodyLines([raw] + rest) == if ReadLine(raw).Body? then [raw] + BodyLines(rest) else BodyLines(rest)
  {
    assert ([raw] + rest)[1..] == rest;
  }

  lemma {:induction false} OneLineMore(raw: string, line: Line, lines: seq<Line>, body: seq<string>)
    requires line == ReadLine(raw) && WordsIn(UnitsOf(lines)) == WordsIn(body)
    ensures WordsIn(UnitsOf([line] + lines)) == WordsIn(if line.Body? then [raw] + body else body)
  {
    UnitsOfMore(line, lines);
    if line.Body? {
      LineUnits(raw);
      WordsInAppend(line.units, UnitsOf(lines));
      WordsInMore(raw, body);
    }
  }

  lemma {:induction false} UnitsKeepWords(raws: seq<string>)
    ensures WordsIn(UnitsOf(ReadLines(raws))) == WordsIn(BodyLines(raws))
  {
    if raws != [] {
      var first, rest := raws[0], raws[1..];
      assert raws == [first] + rest;
      UnitsKeepWords(rest);
      MappedMore(ReadLine, first, rest);
      BodyLinesMore(first, rest);
      OneLineMore(first, ReadLine(first), ReadLines(rest), BodyLines(rest));
    }
  }

  /** For every text: the words of its chunks, those of repeated sentences deleted, are the words of all its lines but
      the headings, once and in order. */
  lemma {:induction false} ChunksKeepWords(c: TokenAwareChunker, text: string)
    ensures var cuts := ChunkerGuarantees.CutsOf(c, SectionsFrom(ReadDocument(text), [], []));
      WordsIn(ChunkerGuarantees.NewSentences(cuts)) == WordsIn(BodyLines(SplitLines(text)))
  {
    ChunkerGuarantees.DocumentCovered(c, ReadDocument(text));
    UnitsKeepWords(SplitLines(text));
  }
}
