/** What the chunker promises about the chunks it returns. */
module ChunkerGuarantees {
  import opened Outcomes
  import opened Lines
  import opened Text
  import opened OverlapPlanner
  import opened Chunking

  // ---------------------------------------------------------------- inside a section

  ghost predicate AllFit(costs: seq<nat>, budget: nat) {
    forall i :: 0 <= i < |costs| ==> costs[i] <= budget
  }

  /** The chunks of a section carry its sentences slice by slice: each piece within the budget and closed only when the
      next sentence did not fit, each repeated start the longest allowed suffix of the piece before and never all of
      it. Deleting the repeated starts and joining the rest gives back exactly the sentences of the section, in
      order. */
  lemma {:induction false} SectionReconstruction(c: TokenAwareChunker, section: Section)
    ensures var spans, units := c.SectionPlan(section), section.units;
      var budget := c.Budget(PrefixOf(HeadingOf(section.path)));
      Fit(spans, |units|) && WithoutRepeats(units, spans) == units && Tiles(spans, 0, |units|) &&
      WellPlanned(c.UnitCosts(units), budget, c.OverlapBudget(budget), spans)
  {
    var budget := c.Budget(PrefixOf(HeadingOf(section.path)));
    var spans := c.SectionPlan(section);
    PlanFits(c.UnitCosts(section.units), budget, c.OverlapBudget(budget));
    Reconstruction(section.units, spans, 0);
    assert section.units[0..] == section.units;
  }

  lemma {:induction false} NoOversizeSpans(costs: seq<nat>, budget: nat, overlap: nat, spans: seq<Span>)
    requires AllFit(costs, budget) && WellPlanned(costs, budget, overlap, spans)
    ensures forall s :: s in spans ==> s.Piece? && s.lo < s.hi <= |costs|
  {
    if spans != [] {
      NoOversizeSpans(costs, budget, overlap, spans[1..]);
      forall s | s in spans ensures s.Piece? && s.lo < s.hi <= |costs| {
        if s != spans[0] {
          assert s in spans[1..];
        }
      }
    }
  }

  /** Where every sentence fits the budget there is exactly one chunk per piece of the plan, with that slice of the
      sentences as its content. */
  lemma {:induction false} OneChunkPerPiece(
      c: TokenAwareChunker, heading: Option<string>, units: seq<string>, spans: seq<Span>, budget: nat, overlap: nat)
    requires forall s :: s in spans ==> s.Piece? && s.lo < s.hi <= |units|
    ensures var drafts := c.DraftsOf(heading, units, spans, budget, overlap);
      |drafts| == |spans| &&
      forall i :: 0 <= i < |spans| ==> drafts[i] == Draft(heading, Carried(units, spans[i]))
  {
    if spans != [] {
      assert spans[0] in spans;
      forall s | s in spans[1..] ensures s in spans {}
      OneChunkPerPiece(c, heading, units, spans[1..], budget, overlap);
      assert c.SpanDrafts(heading, units, spans[0], budget, overlap) == [Draft(heading, Carried(units, spans[0]))];
    }
  }

  lemma {:induction false} FittingSection(c: TokenAwareChunker, section: Section)
    requires AllFit(c.UnitCosts(section.units), c.Budget(PrefixOf(HeadingOf(section.path))))
    ensures var spans, drafts := c.SectionPlan(section), c.SectionDrafts(section);
      |drafts| == |spans| &&
      forall i :: 0 <= i < |spans| ==> drafts[i] == Draft(HeadingOf(section.path), Carried(section.units, spans[i]))
  {
    var heading := HeadingOf(section.path);
    var budget := c.Budget(PrefixOf(heading));
    SectionReconstruction(c, section);
    NoOversizeSpans(c.UnitCosts(section.units), budget, c.OverlapBudget(budget), c.SectionPlan(section));
    OneChunkPerPiece(c, heading, section.units, c.SectionPlan(section), budget, c.OverlapBudget(budget));
  }

  /** Every chunk of a section carries the heading of the section. */
  lemma {:induction false} SectionHeading(c: TokenAwareChunker, heading: Option<string>, units: seq<string>,
                                          spans: seq<Span>, budget: nat, overlap: nat)
    ensures forall d :: d in c.DraftsOf(heading, units, spans, budget, overlap) ==> d.heading == heading
  {
    if spans != [] {
      SectionHeading(c, heading, units, spans[1..], budget, overlap);
      forall d | d in c.SpanDrafts(heading, units, spans[0], budget, overlap) ensures d.heading == heading {}
    }
  }

  // ---------------------------------------------------------------- inside an over-long sentence

  /** Hard splitting follows the same plan over words: all words in order, the same budget, overlap and progress; the
      words joined again are the sentence. */
  lemma {:induction false} HardSplitReconstruction(c: TokenAwareChunker, unit: string, budget: nat, overlap: nat)
    ensures var words := SplitOn(unit, ' ');
      var spans := Plan(c.WordCosts(words), budget, overlap);
      Fit(spans, |words|) && WithoutRepeats(words, spans) == words && Join(" ", words) == unit &&
      WellPlanned(c.WordCosts(words), budget, overlap, spans)
  {
    var words := SplitOn(unit, ' ');
    PlanFits(c.WordCosts(words), budget, overlap);
    Reconstruction(words, Plan(c.WordCosts(words), budget, overlap), 0);
    assert words[0..] == words;
    JoinOfSplit(unit, ' ');
  }

  lemma {:induction false} NonBlankAppend(a: seq<string>, b: seq<string>)
    ensures NonBlank(a + b) == NonBlank(a) + NonBlank(b)
  {
    if a == [] {
      assert a + b == b;
    } else {
      assert (a + b)[1..] == a[1..] + b;
      NonBlankAppend(a[1..], b);
    }
  }

  /** Only pieces of white space are dropped: wherever the word plan is taken apart, the result is what is left of the
      pieces before a span, then the pieces of the span itself, then those behind it, each as often as it was cut. */
  lemma {:induction false} HardSplitKeepsText(c: TokenAwareChunker, unit: string, budget: nat, overlap: nat,
                                              before: seq<Span>, s: Span, after: seq<Span>)
    requires Plan(c.WordCosts(SplitOn(unit, ' ')), budget, overlap) == before + [s] + after
    ensures var words := SplitOn(unit, ' ');
      c.HardPieces(unit, budget, overlap) ==
      NonBlank(c.PiecesOf(words, before, budget)) + NonBlank(c.SpanPieces(words, s, budget)) +
      NonBlank(c.PiecesOf(words, after, budget))
  {
    var words := SplitOn(unit, ' ');
    var f := c.WordRenderer(words, budget);
    RenderBehind(f, before, s, after);
    NonBlankAppend(Render(f, before) + f(s), Render(f, after));
    NonBlankAppend(Render(f, before), f(s));
  }

  /** A word larger than the whole budget is cut into slices that spell it out again. */
  lemma {:induction false} OversizeWordSlices(c: TokenAwareChunker, words: seq<string>, at: nat, budget: nat)
    requires at < |words|
    ensures Join("", c.SpanPieces(words, Oversize(at), budget)) == words[at]
    ensures forall p :: p in c.SpanPieces(words, Oversize(at), budget) ==> 0 < |p| <= c.SliceSize(budget)
  {
  }

  // ---------------------------------------------------------------- the finished list

  lemma {:induction false} NumberedShape(c: TokenAwareChunker, drafts: seq<Draft>, i: nat)
    requires i < |drafts|
    ensures c.Numbered(drafts)[i].ordinal == i && c.Numbered(drafts)[i].heading == drafts[i].heading
  {
    assert c.Numbered(drafts)[i] == c.Maker()(i, drafts[i]);
  }

  /** The last two chunks became one, which has the place and heading of the first of them; the stub had that heading
      too and was below the minimum size. */
  ghost predicate FoldedInto(c: TokenAwareChunker, chunks: seq<Chunk>, merged: Chunk, result: seq<Chunk>) {
    var n := |chunks|;
    n >= 2 && result == chunks[..n - 2] + [merged] &&
    merged.ordinal == chunks[n - 2].ordinal && merged.heading == chunks[n - 2].heading &&
    chunks[n - 1].heading == chunks[n - 2].heading && chunks[n - 1].tokenCount < c.minTokens
  }

  lemma {:induction false} FoldShape(c: TokenAwareChunker, chunks: seq<Chunk>, result: seq<Chunk>)
    returns (merged: Chunk)
    requires result == c.MergeTrailingStub(chunks)
    ensures result == chunks || FoldedInto(c, chunks, merged, result)
  {
    var n := |chunks|;
    merged := if n >= 2 then c.Folded(chunks[n - 2], chunks[n - 1]) else Chunk(0, "", 0, None);
  }

  lemma {:induction false} PlaceKept(c: TokenAwareChunker, chunks: seq<Chunk>, merged: Chunk, result: seq<Chunk>,
                                     i: nat)
    requires result == chunks || FoldedInto(c, chunks, merged, result)
    requires i < |result|
    ensures i < |chunks| && result[i].ordinal == chunks[i].ordinal && result[i].heading == chunks[i].heading
  {
  }

  /** After stub folding the ordinals still run 0, 1, 2, ... and every chunk keeps the heading it was cut under. */
  lemma {:induction false} OrdinalsSequential(c: TokenAwareChunker, drafts: seq<Draft>, result: seq<Chunk>, i: nat)
    requires result == c.MergeTrailingStub(c.Numbered(drafts))
    requires i < |result|
    ensures i < |drafts| && result[i].ordinal == i && result[i].heading == drafts[i].heading
  {
    var chunks := c.Numbered(drafts);
    var merged := FoldShape(c, chunks, result);
    PlaceKept(c, chunks, merged, result, i);
    NumberedShape(c, drafts, i);
  }

  lemma {:induction false} HeadingsMatch(c: TokenAwareChunker, chunks: seq<Chunk>, merged: Chunk, result: seq<Chunk>)
    requires FoldedInto(c, chunks, merged, result)
    ensures var n := |chunks|;
      n >= 2 && |result| == n - 1 && chunks[n - 2].heading == chunks[n - 1].heading &&
      result[..n - 2] == chunks[..n - 2]
  {
  }

  /** Folding happens only between neighbours cut under the same heading, and leaves all chunks before them alone. */
  lemma {:induction false} FoldStaysInSection(c: TokenAwareChunker, drafts: seq<Draft>, result: seq<Chunk>)
    requires result == c.MergeTrailingStub(c.Numbered(drafts))
    ensures result != c.Numbered(drafts) ==> var n := |drafts|;
      n >= 2 && |result| == n - 1 && drafts[n - 2].heading == drafts[n - 1].heading &&
      result[..n - 2] == c.Numbered(drafts)[..n - 2]
  {
    var chunks, n := c.Numbered(drafts), |drafts|;
    if result != chunks {
      var merged := FoldShape(c, chunks, result);
      HeadingsMatch(c, chunks, merged, result);
      NumberedShape(c, drafts, n - 2);
      NumberedShape(c, drafts, n - 1);
    }
  }

  // ---------------------------------------------------------------- folding keeps the text

  lemma {:induction false} TrimmedJoin(sep: string, parts: seq<string>)
    requires forall p :: p in parts ==> Trimmed(p) && p != ""
    ensures Trimmed(Join(sep, parts))
    ensures parts != [] ==> Join(sep, parts) != ""
  {
    if |parts| == 1 {
      assert parts[0] in parts;
    } else if parts != [] {
      assert parts[0] in parts;
      forall p | p in parts[1..] ensures Trimmed(p) && p != "" { assert p in parts; }
      TrimmedJoin(sep, parts[1..]);
      var rest, all := Join(sep, parts[1..]), Join(sep, parts);
      assert all[0] == parts[0][0];
      assert all[|all| - 1] == rest[|rest| - 1];
    }
  }

  lemma {:induction false} BodyTrimmed(units: seq<string>)
    ensures Trimmed(BodyOf(units))
  {
    var parts := NonBlank(units);
    var stripped := StripAll(parts);
    forall p | p in stripped ensures Trimmed(p) && p != "" {
      var i :| 0 <= i < |stripped| && stripped[i] == p;
      assert parts[i] in parts;
      StripTrims(parts[i]);
    }
    TrimmedJoin(" ", stripped);
  }

  lemma {:induction false} StripTrailingLine(s: string)
    requires s != "" && Trimmed(s)
    ensures Strip(s + "\n") == s
  {
    var text := s + "\n";
    assert text[0] == s[0];
    assert StripLeft(text) == text;
    assert IsSpace('\n');
    assert text[..|text| - 1] == s;
    assert StripRight(s) == s;
  }

  /** A heading line and a body stripped of outer white space: the heading stays in front. */
  lemma {:induction false} HeadedText(title: string, body: string)
    requires Trimmed(title) && Trimmed(body) && title != ""
    ensures Strip(HeadingLine(title) + body) == if body == "" then title else title + ("\n" + body)
  {
    if body == "" {
      assert HeadingLine(title) + body == title + "\n";
      StripTrailingLine(title);
    } else {
      var text := title + ("\n" + body);
      assert HeadingLine(title) + body == text;
      assert text[0] == title[0] && text[|text| - 1] == body[|body| - 1];
      StripOfTrimmed(text);
    }
  }

  lemma {:induction false} StripLeadingLine(s: string)
    requires s != "" && Trimmed(s)
    ensures Strip("\n" + s) == s
  {
    assert IsSpace('\n');
    assert ("\n" + s)[1..] == s;
    StripOfTrimmed(s);
    assert StripLeft(s) == s;
  }

  lemma {:induction false} PrefixRemoved(prefix: string, rest: string)
    ensures RemovePrefix(prefix + rest, prefix) == rest
  {
  }

  lemma {:induction false} AfterHeading(title: string, body: string)
    requires Trimmed(body)
    ensures Strip(RemovePrefix(if body == "" then title else title + ("\n" + body), title)) == body
  {
    if body == "" {
      PrefixRemoved(title, "");
      assert title + "" == title;
    } else {
      PrefixRemoved(title, "\n" + body);
      StripLeadingLine(body);
    }
  }

  /** Removing the heading from a rendered chunk leaves exactly its body. */
  lemma {:induction false} BodyRecovered(title: string, body: string)
    requires Trimmed(title) && Trimmed(body)
    ensures Strip(RemovePrefix(Strip(HeadingLine(title) + body), title)) == body
  {
    if title == "" {
      assert HeadingLine(title) + body == body;
      StripOfTrimmed(body);
      PrefixRemoved("", body);
      assert "" + body == body;
    } else {
      HeadedText(title, body);
      AfterHeading(title, body);
    }
  }

  /** What folding takes out of a chunk is its whole body. */
  ghost predicate TailIsBody(chunk: Chunk, units: seq<string>) {
    Strip(RemovePrefix(chunk.content, TitleOf(chunk.heading))) == BodyOf(units)
  }

  lemma {:induction false} MadeTail(c: TokenAwareChunker, ordinal: nat, d: Draft)
    requires Trimmed(TitleOf(d.heading))
    ensures TailIsBody(c.Make(ordinal, d), d.units)
  {
    BodyTrimmed(d.units);
    BodyRecovered(TitleOf(d.heading), BodyOf(d.units));
  }

  /** Folding a stub loses nothing but the repeated heading: the merged text is the text of the chunk before, a space,
      and the whole body of the stub. */
  lemma {:induction false} FoldKeepsText(c: TokenAwareChunker, previous: Chunk, ordinal: nat, d: Draft)
    requires previous.heading == d.heading && Trimmed(TitleOf(d.heading))
    ensures c.Folded(previous, c.Make(ordinal, d)).content == Strip(previous.content + " " + BodyOf(d.units))
  {
    MadeTail(c, ordinal, d);
  }

  // ---------------------------------------------------------------- whole documents

  /** As the heading pattern leaves them: stripped, and never empty. */
  ghost predicate Titles(path: seq<string>) {
    forall title :: title in path ==> Trimmed(title) && title != ""
  }

  /** The heading put in front of a chunk is trimmed, because its titles are. */
  lemma {:induction false} HeadingTrimmed(path: seq<string>)
    requires Titles(path)
    ensures Trimmed(TitleOf(HeadingOf(path)))
  {
    TrimmedJoin(" > ", path);
  }

  ghost predicate TitlesStripped(lines: seq<Line>) {
    forall line :: line in lines && line.Heading? ==> Trimmed(line.title) && line.title != ""
  }

  ghost predicate AllTitled(sections: seq<Section>) {
    forall s :: s in sections ==> Titles(s.path)
  }

  lemma {:induction false} PushedTitles(stack: seq<string>, level: nat, title: string)
    requires Titles(stack) && Trimmed(title) && title != ""
    ensures Titles(PushHeading(stack, level, title))
  {
    var pushed := PushHeading(stack, level, title);
    forall t | t in pushed ensures Trimmed(t) && t != "" {
      var i :| 0 <= i < |pushed| && pushed[i] == t;
      if i < |pushed| - 1 {
        assert t == stack[i];
      }
    }
  }

  lemma {:induction false} SectionTitles(lines: seq<Line>, stack: seq<string>, units: seq<string>)
    requires TitlesStripped(lines) && Titles(stack)
    ensures AllTitled(SectionsFrom(lines, stack, units))
  {
    if lines != [] {
      assert lines[0] in lines;
      forall line | line in lines[1..] && line.Heading? ensures Trimmed(line.title) && line.title != "" {
        assert line in lines;
      }
      match lines[0]
      case Heading(level, title) =>
        PushedTitles(stack, level, title);
        SectionTitles(lines[1..], PushHeading(stack, level, title), []);
      case Body(more) => SectionTitles(lines[1..], stack, units + more);
    }
  }

  lemma {:induction false} DraftHeadings(c: TokenAwareChunker, sections: seq<Section>, d: Draft)
    requires AllTitled(sections) && d in c.AllDrafts(sections)
    ensures Trimmed(TitleOf(d.heading))
  {
    var s := sections[0];
    var budget := c.Budget(PrefixOf(HeadingOf(s.path)));
    if d in c.SectionDrafts(s) {
      SectionHeading(c, HeadingOf(s.path), s.units, c.SectionPlan(s), budget, c.OverlapBudget(budget));
      HeadingTrimmed(s.path);
    } else {
      forall x | x in sections[1..] ensures Titles(x.path) { assert x in sections; }
      DraftHeadings(c, sections[1..], d);
    }
  }

  lemma {:induction false} MadeAt(c: TokenAwareChunker, drafts: seq<Draft>, i: nat)
    requires i < |drafts|
    ensures c.Numbered(drafts)[i] == c.Make(i, drafts[i])
  {
    assert c.Numbered(drafts)[i] == c.Maker()(i, drafts[i]);
  }

  lemma {:induction false} NumberedTail(c: TokenAwareChunker, drafts: seq<Draft>, i: nat)
    requires i < |drafts| && Trimmed(TitleOf(drafts[i].heading))
    ensures TailIsBody(c.Numbered(drafts)[i], drafts[i].units)
  {
    MadeAt(c, drafts, i);
    MadeTail(c, i, drafts[i]);
  }

  /** All chunks but the last two are as they were, and the text of those two is one. */
  ghost predicate StubKept(chunks: seq<Chunk>, result: seq<Chunk>, stub: seq<string>) {
    var n := |chunks|;
    n >= 2 && |result| == n - 1 && result[..n - 2] == chunks[..n - 2] &&
    result[n - 2].content == Strip(chunks[n - 2].content + " " + BodyOf(stub))
  }

  lemma {:induction false} FoldKeepsStub(c: TokenAwareChunker, chunks: seq<Chunk>, result: seq<Chunk>,
                                         stub: seq<string>)
    requires result == c.MergeTrailingStub(chunks) && result != chunks
    requires TailIsBody(chunks[|chunks| - 1], stub)
    ensures StubKept(chunks, result, stub)
  {
  }

  lemma {:induction false} TitlesRead(text: string)
    ensures TitlesStripped(ReadDocument(text))
  {
    var lines, raws := ReadDocument(text), SplitLines(text);
    forall line | line in lines && line.Heading? ensures Trimmed(line.title) && line.title != "" {
      var i :| 0 <= i < |lines| && lines[i] == line;
      assert line == ReadLine(raws[i]);
      assert ReadHeading(Strip(raws[i])).Some?;
    }
  }

  lemma {:induction false} LastHeading(c: TokenAwareChunker, text: string, drafts: seq<Draft>)
    requires drafts == c.AllDrafts(SectionsFrom(ReadDocument(text), [], [])) && drafts != []
    ensures Trimmed(TitleOf(drafts[|drafts| - 1].heading))
  {
    TitlesRead(text);
    SectionTitles(ReadDocument(text), [], []);
    DraftHeadings(c, SectionsFrom(ReadDocument(text), [], []), drafts[|drafts| - 1]);
  }

  /** In what Split returns for any document, a folded stub has lost nothing but its repeated heading. */
  lemma {:induction false} SplitKeepsStub(c: TokenAwareChunker, text: string, result: seq<Chunk>)
    requires result == c.MergeTrailingStub(c.Numbered(c.AllDrafts(SectionsFrom(ReadDocument(text), [], []))))
    ensures var drafts := c.AllDrafts(SectionsFrom(ReadDocument(text), [], []));
      result == c.Numbered(drafts) ||
      (drafts != [] && StubKept(c.Numbered(drafts), result, drafts[|drafts| - 1].units))
  {
    var drafts := c.AllDrafts(SectionsFrom(ReadDocument(text), [], []));
    if result != c.Numbered(drafts) {
      LastHeading(c, text, drafts);
      NumberedTail(c, drafts, |drafts| - 1);
      FoldKeepsStub(c, c.Numbered(drafts), result, drafts[|drafts| - 1].units);
    }
  }

  /** One cut of the document: a span of the plan of one of its sections. */
  datatype Cut = Cut(section: Section, span: Span)

  function CutsOfSection(section: Section, spans: seq<Span>): seq<Cut> {
    if spans == [] then [] else [Cut(section, spans[0])] + CutsOfSection(section, spans[1..])
  }

  function CutsOf(c: TokenAwareChunker, sections: seq<Section>): seq<Cut> {
    if sections == [] then []
    else CutsOfSection(sections[0], c.SectionPlan(sections[0])) + CutsOf(c, sections[1..])
  }

  /** The sentences of a cut without those that repeat the end of the cut before. */
  function NewIn(cut: Cut): seq<string> {
    var carried, repeated := Carried(cut.section.units, cut.span), Repeated(cut.span);
    if repeated <= |carried| then carried[repeated..] else []
  }

  function NewSentences(cuts: seq<Cut>): seq<string> {
    Render(NewIn, cuts)
  }

  /** The chunks of a cut: one with its sentences, or the pieces of its over-long one. */
  function CutDrafts(c: TokenAwareChunker, cut: Cut): seq<Draft> {
    var heading := HeadingOf(cut.section.path);
    var budget := c.Budget(PrefixOf(heading));
    c.SpanDrafts(heading, cut.section.units, cut.span, budget, c.OverlapBudget(budget))
  }

  function CutRenderer(c: TokenAwareChunker): Cut -> seq<Draft> {
    (cut: Cut) => CutDrafts(c, cut)
  }

  function DraftsOfCuts(c: TokenAwareChunker, cuts: seq<Cut>): seq<Draft> {
    Render(CutRenderer(c), cuts)
  }

  lemma {:induction false} NewInSection(section: Section, spans: seq<Span>)
    requires Fit(spans, |section.units|)
    ensures NewSentences(CutsOfSection(section, spans)) == WithoutRepeats(section.units, spans)
  {
    if spans != [] {
      forall s | s in spans[1..] ensures FitsIn(s, |section.units|) { assert s in spans; }
      assert FitsIn(spans[0], |section.units|);
      NewInSection(section, spans[1..]);
      var cuts := CutsOfSection(section, spans);
      assert cuts[0] == Cut(section, spans[0]) && cuts[1..] == CutsOfSection(section, spans[1..]);
    }
  }

  lemma {:induction false} DraftsOfSection(c: TokenAwareChunker, section: Section, spans: seq<Span>)
    ensures var heading := HeadingOf(section.path);
      var budget := c.Budget(PrefixOf(heading));
      DraftsOfCuts(c, CutsOfSection(section, spans)) ==
      c.DraftsOf(heading, section.units, spans, budget, c.OverlapBudget(budget))
  {
    if spans != [] {
      DraftsOfSection(c, section, spans[1..]);
      var cuts := CutsOfSection(section, spans);
      assert cuts[0] == Cut(section, spans[0]) && cuts[1..] == CutsOfSection(section, spans[1..]);
      assert CutRenderer(c)(cuts[0]) == CutDrafts(c, cuts[0]);
    }
  }

  /** Every chunk before folding comes from one of the cuts, in their order, and the cuts without their repeated starts
      are the sentences of all sections. */
  lemma {:induction false} SectionsCut(c: TokenAwareChunker, sections: seq<Section>)
    ensures DraftsOfCuts(c, CutsOf(c, sections)) == c.AllDrafts(sections)
    ensures NewSentences(CutsOf(c, sections)) == UnitsIn(sections)
  {
    if sections != [] {
      var s := sections[0];
      SectionReconstruction(c, s);
      NewInSection(s, c.SectionPlan(s));
      DraftsOfSection(c, s, c.SectionPlan(s));
      RenderAppend(NewIn, CutsOfSection(s, c.SectionPlan(s)), CutsOf(c, sections[1..]));
      RenderAppend(CutRenderer(c), CutsOfSection(s, c.SectionPlan(s)), CutsOf(c, sections[1..]));
      SectionsCut(c, sections[1..]);
    }
  }

  /** A whole document: its chunks are the chunks of its cuts, in order, and the cuts, without the sentences they
      repeat, are all sentences of the document, once and in order. */
  lemma {:induction false} DocumentCovered(c: TokenAwareChunker, lines: seq<Line>)
    ensures var sections := SectionsFrom(lines, [], []);
      c.AllDrafts(sections) == DraftsOfCuts(c, CutsOf(c, sections)) &&
      NewSentences(CutsOf(c, sections)) == UnitsOf(lines)
  {
    SectionsCut(c, SectionsFrom(lines, [], []));
    SectionsCover(lines, [], []);
    assert [] + UnitsOf(lines) == UnitsOf(lines);
  }
}
