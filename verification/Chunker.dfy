/** Token-aware chunking of documents: heading sections, sentence-aligned pieces with overlap, hard splits of over-long
    sentences, and folding of a trailing stub. Token counts come from an arbitrary counting function. */
module Chunking {
  import opened Outcomes
  import opened Lines
  import opened Text
  import opened OverlapPlanner

  // ---------------------------------------------------------------- sections

  /** The title stands at its level, or behind the whole stack when that is shorter; before it, nothing has changed. */
  ghost predicate Pushed(stack: seq<string>, level: nat, title: string, path: seq<string>) {
    |path| == (if level <= |stack| then level else |stack| + 1) && path != [] &&
    path[|path| - 1] == title && path[..|path| - 1] == stack[..|path| - 1]
  }

  datatype Section = Section(path: seq<string>, units: seq<string>)

  /** A heading closes the sections from its level on and opens its own. */
  function PushHeading(stack: seq<string>, level: nat, title: string): (path: seq<string>)
    ensures level > 0 ==> Pushed(stack, level, title, path)
  {
    if level == 0 then [title]
    else if level - 1 < |stack| then stack[..level - 1] + [title]
    else stack + [title]
  }

  function Flush(path: seq<string>, units: seq<string>): seq<Section> {
    if units == [] then [] else [Section(path, units)]
  }

  function SectionsFrom(lines: seq<Line>, stack: seq<string>, units: seq<string>): seq<Section> {
    if lines == [] then Flush(stack, units)
    else match lines[0]
      case Heading(level, title) =>
        Flush(stack, units) + SectionsFrom(lines[1..], PushHeading(stack, level, title), [])
      case Body(more) => SectionsFrom(lines[1..], stack, units + more)
  }

  /** The sections found so far, in front of those to come. */
  ghost predicate SectionsUpTo(lines: seq<Line>, i: nat, stack: seq<string>, units: seq<string>, done: seq<Section>,
                               all: seq<Section>)
    requires i <= |lines|
  {
    done + SectionsFrom(lines[i..], stack, units) == all
  }

  lemma {:induction false} NextLine(lines: seq<Line>, i: nat, line: Line, stack: seq<string>, units: seq<string>)
    requires i < |lines| && lines[i] == line
    ensures var rest := lines[i + 1..];
      SectionsFrom(lines[i..], stack, units) ==
      match line
      case Heading(level, title) => Flush(stack, units) + SectionsFrom(rest, PushHeading(stack, level, title), [])
      case Body(more) => SectionsFrom(rest, stack, units + more)
  {
    assert lines[i..][1..] == lines[i + 1..];
  }

  lemma {:induction false} HeadingPassed(lines: seq<Line>, i: nat, line: Line, stack: seq<string>, units: seq<string>,
                                         done: seq<Section>, all: seq<Section>)
    requires i < |lines| && lines[i] == line && line.Heading? && SectionsUpTo(lines, i, stack, units, done, all)
    ensures SectionsUpTo(lines, i + 1, PushHeading(stack, line.level, line.title), [], done + Flush(stack, units), all)
  {
    NextLine(lines, i, line, stack, units);
    var flushed := Flush(stack, units);
    var rest := SectionsFrom(lines[i + 1..], PushHeading(stack, line.level, line.title), []);
    assert done + (flushed + rest) == (done + flushed) + rest;
  }

  lemma {:induction false} BodyPassed(lines: seq<Line>, i: nat, line: Line, stack: seq<string>, units: seq<string>,
                                      done: seq<Section>, all: seq<Section>)
    requires i < |lines| && lines[i] == line && line.Body? && SectionsUpTo(lines, i, stack, units, done, all)
    ensures SectionsUpTo(lines, i + 1, stack, units + line.units, done, all)
  {
    NextLine(lines, i, line, stack, units);
  }

  lemma {:induction false} NoLineLeft(lines: seq<Line>, stack: seq<string>, units: seq<string>, done: seq<Section>,
                                      all: seq<Section>)
    requires SectionsUpTo(lines, |lines|, stack, units, done, all)
    ensures done + Flush(stack, units) == all
  {
  }

  lemma {:induction false} NoLineYet(lines: seq<Line>)
    ensures SectionsUpTo(lines, 0, [], [], [], SectionsFrom(lines, [], []))
  {
    assert lines[0..] == lines;
  }

  method IterSections(text: string) returns (sections: seq<Section>)
    ensures sections == SectionsFrom(ReadDocument(text), [], [])
  {
    var raws := SplitLines(text);
    ghost var lines := ReadLines(raws);
    ghost var all := SectionsFrom(lines, [], []);
    var headingStack: seq<string> := [];
    var units: seq<string> := [];
    sections := [];
    NoLineYet(lines);
    for i := 0 to |raws|
      invariant SectionsUpTo(lines, i, headingStack, units, sections, all)
    {
      var line := ReadLine(raws[i]);
      match line
      case Heading(level, title) =>
        HeadingPassed(lines, i, line, headingStack, units, sections, all);
        sections := sections + Flush(headingStack, units);
        units := [];
        headingStack := PushHeading(headingStack, level, title);
      case Body(more) =>
        BodyPassed(lines, i, line, headingStack, units, sections, all);
        units := units + more;
    }
    NoLineLeft(lines, headingStack, units, sections, all);
    sections := sections + Flush(headingStack, units);
  }

  function UnitsOf(lines: seq<Line>): seq<string> {
    if lines == [] then []
    else (if lines[0].Body? then lines[0].units else []) + UnitsOf(lines[1..])
  }

  function UnitsIn(sections: seq<Section>): seq<string> {
    if sections == [] then [] else sections[0].units + UnitsIn(sections[1..])
  }

  function StackAfter(lines: seq<Line>, stack: seq<string>): seq<string> {
    if lines == [] then stack
    else StackAfter(lines[1..], if lines[0].Heading? then PushHeading(stack, lines[0].level, lines[0].title) else stack)
  }

  lemma {:induction false} UnitsInAppend(a: seq<Section>, b: seq<Section>)
    ensures UnitsIn(a + b) == UnitsIn(a) + UnitsIn(b)
  {
    if a == [] {
      assert a + b == b;
    } else {
      assert (a + b)[1..] == a[1..] + b;
      UnitsInAppend(a[1..], b);
    }
  }

  /** The sections hold these units, and none is empty. */
  predicate Holding(sections: seq<Section>, units: seq<string>) {
    UnitsIn(sections) == units && forall s :: s in sections ==> s.units != []
  }

  lemma {:induction false} FlushHolds(path: seq<string>, units: seq<string>)
    ensures Holding(Flush(path, units), units)
  {
    assert units + [] == units;
  }

  lemma {:induction false} BothHold(a: seq<Section>, b: seq<Section>, front: seq<string>, back: seq<string>)
    requires Holding(a, front) && Holding(b, back)
    ensures Holding(a + b, front + back)
  {
    UnitsInAppend(a, b);
  }

  lemma {:induction false} UnitsOfNext(lines: seq<Line>, line: Line, rest: seq<Line>)
    requires lines != [] && lines[0] == line && lines[1..] == rest
    ensures UnitsOf(lines) == if line.Body? then line.units + UnitsOf(rest) else UnitsOf(rest)
  {
  }

  lemma {:induction false} LinesHeld(lines: seq<Line>, stack: seq<string>, units: seq<string>)
    ensures Holding(SectionsFrom(lines, stack, units), units + UnitsOf(lines))
  {
    if lines == [] {
      FlushHolds(stack, units);
      assert units + [] == units;
    } else {
      var line, rest := lines[0], lines[1..];
      assert lines[0..] == lines;
      NextLine(lines, 0, line, stack, units);
      UnitsOfNext(lines, line, rest);
      match line
      case Heading(level, title) =>
        var next := PushHeading(stack, level, title);
        LinesHeld(rest, next, []);
        assert [] + UnitsOf(rest) == UnitsOf(rest);
        FlushHolds(stack, units);
        BothHold(Flush(stack, units), SectionsFrom(rest, next, []), units, UnitsOf(rest));
      case Body(more) =>
        LinesHeld(rest, stack, units + more);
        assert (units + more) + UnitsOf(rest) == units + (more + UnitsOf(rest));
    }
  }

  /** The sections hold every sentence of the document once and in order, and no section is empty. */
  lemma {:induction false} SectionsCover(lines: seq<Line>, stack: seq<string>, units: seq<string>)
    ensures UnitsIn(SectionsFrom(lines, stack, units)) == units + UnitsOf(lines)
    ensures forall s :: s in SectionsFrom(lines, stack, units) ==> s.units != []
  {
    LinesHeld(lines, stack, units);
  }

  lemma {:induction false} PathOneMore(before: seq<Line>, line: Line, stack: seq<string>)
    ensures StackAfter(before + [line], stack) == StackAfter([line], StackAfter(before, stack))
  {
    if before == [] {
      assert before + [line] == [line];
    } else {
      var first := before[0];
      assert (before + [line])[0] == first && (before + [line])[1..] == before[1..] + [line];
      PathOneMore(before[1..], line, if first.Heading? then PushHeading(stack, first.level, first.title) else stack);
    }
  }

  lemma {:induction false} OneLine(line: Line, stack: seq<string>)
    ensures line.Body? ==> StackAfter([line], stack) == stack
    ensures line.Heading? && line.level > 0 ==> Pushed(stack, line.level, line.title, StackAfter([line], stack))
  {
    assert [line][1..] == [];
  }

  lemma {:induction false} PathBehind(first: Line, before: seq<Line>, line: Line, stack: seq<string>)
    ensures StackAfter([first] + before + [line], stack)
         == StackAfter(before + [line], if first.Heading? then PushHeading(stack, first.level, first.title) else stack)
  {
    assert ([first] + before + [line])[1..] == before + [line];
  }

  /** A heading is a hard boundary: the sections before it do not depend on anything after it, and the sections after
      it hold nothing from before it. */
  lemma {:induction false} HeadingIsBoundary(
      before: seq<Line>, level: nat, title: string, after: seq<Line>, stack: seq<string>, units: seq<string>)
    ensures SectionsFrom(before + [Heading(level, title)] + after, stack, units)
         == SectionsFrom(before, stack, units)
            + SectionsFrom(after, StackAfter(before + [Heading(level, title)], stack), [])
  {
    var all := before + [Heading(level, title)] + after;
    if before == [] {
      assert all[1..] == after && before + [Heading(level, title)] == [Heading(level, title)];
      assert [Heading(level, title)][1..] == [];
    } else {
      PathBehind(before[0], before[1..], Heading(level, title), stack);
      assert [before[0]] + before[1..] == before;
      assert all[0] == before[0] && all[1..] == before[1..] + [Heading(level, title)] + after;
      match before[0]
      case Heading(l, t) =>
        HeadingIsBoundary(before[1..], level, title, after, PushHeading(stack, l, t), []);
      case Body(more) =>
        HeadingIsBoundary(before[1..], level, title, after, stack, units + more);
    }
  }

  // ---------------------------------------------------------------- chunks

  datatype Chunk = Chunk(ordinal: nat, content: string, tokenCount: nat, heading: Option<string>)

  /** What goes into one chunk before it is rendered. */
  datatype Draft = Draft(heading: Option<string>, units: seq<string>)

  function HeadingOf(path: seq<string>): (heading: Option<string>)
    ensures heading.None? <==> path == []
    ensures |path| == 1 ==> heading == Some(path[0])
    ensures |path| > 1 ==> heading == Some(path[0] + " > " + HeadingOf(path[1..]).value)
  {
    if path == [] then None else Some(Join(" > ", path))
  }

  /** The heading text, empty when there is none. */
  function TitleOf(heading: Option<string>): string {
    if heading.Some? then heading.value else ""
  }

  function HeadingLine(title: string): string {
    if title != "" then title + "\n" else ""
  }

  function PrefixOf(heading: Option<string>): string {
    HeadingLine(TitleOf(heading))
  }

  function StripAll(parts: seq<string>): seq<string> {
    Mapped(Strip, parts)
  }

  function BodyOf(units: seq<string>): string {
    Join(" ", StripAll(NonBlank(units)))
  }

  /** Each item turned into its chunk, given its position in the list. */
  function NumberWith<D, C>(make: (nat, D) -> C, items: seq<D>): (made: seq<C>)
    ensures |made| == |items|
    ensures forall i :: 0 <= i < |items| ==> made[i] == make(i, items[i])
  {
    seq(|items|, i requires 0 <= i < |items| => make(i, items[i]))
  }

  lemma {:induction false} NumberOneMore<D, C>(make: (nat, D) -> C, items: seq<D>, d: D)
    ensures NumberWith(make, items + [d]) == NumberWith(make, items) + [make(|items|, d)]
  {
  }

  function CharSlices(word: string, size: nat): (slices: seq<string>)
    requires size > 0
    ensures Join("", slices) == word
    ensures forall s :: s in slices ==> 0 < |s| <= size
    ensures forall i :: 0 <= i < |slices| - 1 ==> |slices[i]| == size
  {
    if |word| == 0 then []
    else if |word| <= size then [word]
    else
      assert word == word[..size] + word[size..];
      [word[..size]] + CharSlices(word[size..], size)
  }

  /** The defaults of the service. */
  datatype Settings = Settings(chunkTokens: int, overlapTokens: int, minTokens: int)

  /** An argument that is absent or zero gives way to the setting. */
  function NonZeroOr(value: Option<int>, setting: int): (r: int)
    ensures value == None || value == Some(0) ==> r == setting
    ensures value != None && value != Some(0) ==> Some(r) == value
  {
    if value.Some? && value.value != 0 then value.value else setting
  }

  /** r is x, or the bound it crosses. */
  predicate Clamped(x: int, low: int, high: int, r: int) {
    low <= r <= high && (x < low ==> r == low) && (x > high ==> r == high) && (low <= x <= high ==> r == x)
  }

  lemma {:induction false} SliceOfSlice<T>(items: seq<T>, lo: nat, i: nat, s: nat)
    requires lo <= i <= |items| && s <= i - lo
    ensures items[lo..i][s..] == items[lo + s..i]
  {
  }

  /** Walking back from the end of a slice is walking back from the same place in the whole. */
  lemma {:induction false} CostOfSlice(costs: seq<nat>, a: nat, b: nat, lo: nat, hi: nat)
    requires a <= b <= |costs| && lo <= hi <= b - a
    ensures Cost(costs[a..b], lo, hi) == Cost(costs, a + lo, a + hi)
  {
    if lo < hi {
      CostOfSlice(costs, a, b, lo, hi - 1);
    }
  }

  lemma {:induction false} TailScanOfSlice(costs: seq<nat>, a: nat, b: nat, at: nat, total: nat, overlap: nat)
    requires a <= b <= |costs| && at <= b - a
    ensures a + TailScan(costs[a..b], 0, at, total, overlap) == TailScan(costs, a, a + at, total, overlap)
  {
    if at > 0 && total + costs[a + at - 1] <= overlap {
      TailScanOfSlice(costs, a, b, at - 1, total + costs[a + at - 1], overlap);
    }
  }

  lemma {:induction false} TailOfSlice(costs: seq<nat>, a: nat, b: nat, overlap: nat)
    requires a <= b <= |costs|
    ensures a + TailStart(costs[a..b], 0, b - a, overlap) == TailStart(costs, a, b, overlap)
  {
    TailScanOfSlice(costs, a, b, b - a, 0, overlap);
  }

  lemma {:induction false} TailOfItems<T>(items: seq<T>, costs: seq<nat>, lo: nat, i: nat, overlap: nat)
    requires lo <= i <= |items| == |costs|
    ensures var t := TailStart(costs, lo, i, overlap);
      var s := TailStart(costs[lo..i], 0, i - lo, overlap);
      items[lo..i][s..] == items[t..i] && Cost(costs[lo..i], s, i - lo) == Cost(costs, t, i)
  {
    TailOfSlice(costs, lo, i, overlap);
    var s := TailStart(costs[lo..i], 0, i - lo, overlap);
    CostOfSlice(costs, lo, i, s, i - lo);
    SliceOfSlice(items, lo, i, s);
  }

  lemma {:induction false} SliceGrows<T>(items: seq<T>, lo: nat, i: nat)
    requires lo <= i < |items|
    ensures items[lo..i] + [items[i]] == items[lo..i + 1]
  {
  }

  lemma {:induction false} ReplaceLastTwo<T>(items: seq<T>, x: T)
    requires |items| >= 2
    ensures items[|items| - 2 := x][..|items| - 1] == items[..|items| - 2] + [x]
  {
  }

  datatype TokenAwareChunker = TokenAwareChunker(count: string -> nat, chunkTokens: nat, overlapTokens: nat,
                                                 minTokens: nat) {

    /** The settings a chunker can end up with. */
    ghost predicate Valid() {
      chunkTokens >= 32 && overlapTokens <= chunkTokens / 2 && 1 <= minTokens <= chunkTokens
    }

    /** The constructor: what was asked for, or else the settings, clamped. Only for the overlap does zero count as
        asked for. */
    static function Configure(count: string -> nat, chunkTokens: Option<int>, overlapTokens: Option<int>,
                              minTokens: Option<int>, settings: Settings): (c: TokenAwareChunker)
      ensures c.Valid() && c.count == count
      ensures var asked := NonZeroOr(chunkTokens, settings.chunkTokens);
        var least := NonZeroOr(minTokens, settings.minTokens);
        var overlap := if overlapTokens.Some? then overlapTokens.value else settings.overlapTokens;
        c.chunkTokens >= 32 && (asked >= 32 ==> c.chunkTokens == asked) && (asked < 32 ==> c.chunkTokens == 32) &&
        Clamped(overlap, 0, c.chunkTokens / 2, c.overlapTokens) && Clamped(least, 1, c.chunkTokens, c.minTokens)
    {
      var asked := NonZeroOr(chunkTokens, settings.chunkTokens);
      var chunk := if asked < 32 then 32 else asked;
      var overlap := if overlapTokens.Some? then overlapTokens.value else settings.overlapTokens;
      var cut := if overlap < chunk / 2 then overlap else chunk / 2;
      var floor := NonZeroOr(minTokens, settings.minTokens);
      var least := if floor < chunk then floor else chunk;
      TokenAwareChunker(count, chunk, if cut < 0 then 0 else cut, if least < 1 then 1 else least)
    }

    function Budget(prefix: string): (b: nat)
      ensures b >= minTokens && b + count(prefix) >= chunkTokens
      ensures b + count(prefix) == chunkTokens || b == minTokens
    {
      if chunkTokens - count(prefix) > minTokens then chunkTokens - count(prefix) else minTokens
    }

    function OverlapBudget(budget: nat): (o: nat)
      ensures o <= overlapTokens && 2 * o <= budget && (o == overlapTokens || 2 * o + 1 >= budget)
    {
      if overlapTokens < budget / 2 then overlapTokens else budget / 2
    }

    /** With such settings every section has room, and the overlap stays below the budget, however long its heading. */
    lemma {:induction false} RoomForText(prefix: string)
      requires Valid()
      ensures var budget := Budget(prefix); 1 <= budget <= chunkTokens && OverlapBudget(budget) < budget
    {
      if chunkTokens - count(prefix) > minTokens {
        assert Budget(prefix) <= chunkTokens;
      }
    }

    function UnitCost(unit: string): nat {
      count(unit)
    }

    function UnitCosts(units: seq<string>): (costs: seq<nat>)
      ensures |costs| == |units|
      ensures forall i :: 0 <= i < |units| ==> costs[i] == UnitCost(units[i])
    {
      seq(|units|, i requires 0 <= i < |units| => UnitCost(units[i]))
    }

    function WordCost(word: string): (cost: nat)
      ensures cost > 0 && (cost == count(word) || (cost == 1 && count(word) == 0))
    {
      if count(word) == 0 then 1 else count(word)
    }

    function WordCosts(words: seq<string>): (costs: seq<nat>)
      ensures |costs| == |words|
      ensures forall i :: 0 <= i < |words| ==> costs[i] == WordCost(words[i])
    {
      seq(|words|, i requires 0 <= i < |words| => WordCost(words[i]))
    }

    function SliceSize(budget: nat): (n: nat)
      ensures n == if budget > 0 then 3 * budget else 1
    {
      if budget * 3 > 1 then budget * 3 else 1
    }

    // -------------------------------------------------------------- rendering a plan

    function SpanPieces(words: seq<string>, s: Span, budget: nat): seq<string> {
      var carried := Carried(words, s);
      if carried == [] then []
      else if s.Piece? then [Join(" ", carried)]
      else CharSlices(carried[0], SliceSize(budget))
    }

    function WordRenderer(words: seq<string>, budget: nat): Span -> seq<string> {
      s => SpanPieces(words, s, budget)
    }

    function PiecesOf(words: seq<string>, spans: seq<Span>, budget: nat): seq<string> {
      Render(WordRenderer(words, budget), spans)
    }

    /** The pieces of an over-long sentence: the word plan rendered, without pieces of white space only. */
    function HardPieces(unit: string, budget: nat, overlap: nat): seq<string> {
      var words := SplitOn(unit, ' ');
      NonBlank(PiecesOf(words, Plan(WordCosts(words), budget, overlap), budget))
    }

    function Singles(heading: Option<string>, pieces: seq<string>): (drafts: seq<Draft>)
      ensures |drafts| == |pieces|
      ensures forall i :: 0 <= i < |pieces| ==> drafts[i] == Draft(heading, [pieces[i]])
    {
      seq(|pieces|, i requires 0 <= i < |pieces| => Draft(heading, [pieces[i]]))
    }

    function SpanDrafts(heading: Option<string>, units: seq<string>, s: Span, budget: nat, overlap: nat): seq<Draft> {
      var carried := Carried(units, s);
      if carried == [] then []
      else if s.Piece? then [Draft(heading, carried)]
      else Singles(heading, HardPieces(carried[0], budget, overlap))
    }

    function UnitRenderer(heading: Option<string>, units: seq<string>, budget: nat, overlap: nat): Span -> seq<Draft> {
      s => SpanDrafts(heading, units, s, budget, overlap)
    }

    function DraftsOf(heading: Option<string>, units: seq<string>, spans: seq<Span>, budget: nat,
                      overlap: nat): seq<Draft> {
      Render(UnitRenderer(heading, units, budget, overlap), spans)
    }

    function SectionPlan(section: Section): seq<Span> {
      var budget := Budget(PrefixOf(HeadingOf(section.path)));
      Plan(UnitCosts(section.units), budget, OverlapBudget(budget))
    }

    function SectionDrafts(section: Section): seq<Draft> {
      var heading := HeadingOf(section.path);
      var budget := Budget(PrefixOf(heading));
      DraftsOf(heading, section.units, SectionPlan(section), budget, OverlapBudget(budget))
    }

    function AllDrafts(sections: seq<Section>): seq<Draft> {
      if sections == [] then [] else SectionDrafts(sections[0]) + AllDrafts(sections[1..])
    }

    function Make(ordinal: nat, d: Draft): Chunk {
      var content := Strip(PrefixOf(d.heading) + BodyOf(d.units));
      Chunk(ordinal, content, count(content), d.heading)
    }

    function Maker(): (nat, Draft) -> Chunk {
      (ordinal: nat, d: Draft) => Make(ordinal, d)
    }

    function Numbered(drafts: seq<Draft>): (chunks: seq<Chunk>)
      ensures |chunks| == |drafts|
    {
      NumberWith(Maker(), drafts)
    }

    // -------------------------------------------------------------- the loops

    method OverlapTail(units: seq<string>, overlap: nat) returns (tail: seq<string>, total: nat)
      ensures var costs := UnitCosts(units);
        var t := TailStart(costs, 0, |units|, overlap);
        tail == units[t..] && total == Cost(costs, t, |units|)
    {
      if overlap == 0 || units == [] {
        return [], 0;
      }
      ghost var costs := UnitCosts(units);
      var i := |units|;
      tail, total := [], 0;
      while i > 0
        invariant 0 <= i <= |units| && tail == units[i..] && TailAt(costs, i, total, overlap)
      {
        var unitTokens := count(units[i - 1]);
        if total + unitTokens > overlap {
          break;
        }
        TailGrows(costs, i, total, overlap);
        tail := [units[i - 1]] + tail;
        total := total + unitTokens;
        i := i - 1;
      }
      TailEnds(costs, i, total, overlap);
    }

    method WordOverlap(words: seq<string>, overlap: nat) returns (tail: seq<string>, total: nat)
      ensures var costs := WordCosts(words);
        var t := TailStart(costs, 0, |words|, overlap);
        tail == words[t..] && total == Cost(costs, t, |words|)
    {
      if overlap == 0 {
        return [], 0;
      }
      ghost var costs := WordCosts(words);
      var i := |words|;
      tail, total := [], 0;
      while i > 0
        invariant 0 <= i <= |words| && tail == words[i..] && TailAt(costs, i, total, overlap)
      {
        var wordTokens := WordCost(words[i - 1]);
        if total + wordTokens > overlap {
          break;
        }
        TailGrows(costs, i, total, overlap);
        tail := [words[i - 1]] + tail;
        total := total + wordTokens;
        i := i - 1;
      }
      TailEnds(costs, i, total, overlap);
    }

    lemma {:induction false} WordCostsOfSlice(words: seq<string>, lo: nat, i: nat)
      requires lo <= i <= |words|
      ensures WordCosts(words[lo..i]) == WordCosts(words)[lo..i]
    {
    }

    lemma {:induction false} UnitCostsOfSlice(units: seq<string>, lo: nat, i: nat)
      requires lo <= i <= |units|
      ensures UnitCosts(units[lo..i]) == UnitCosts(units)[lo..i]
    {
    }

    /** The word tail of words lo..i, in terms of the whole list. */
    lemma {:induction false} WordTail(words: seq<string>, lo: nat, i: nat, flushed: seq<string>, overlap: nat)
      requires lo <= i <= |words| && flushed == words[lo..i]
      ensures var t := TailStart(WordCosts(words), lo, i, overlap);
        var s := TailStart(WordCosts(flushed), 0, |flushed|, overlap);
        flushed[s..] == words[t..i] && Cost(WordCosts(flushed), s, |flushed|) == Cost(WordCosts(words), t, i)
    {
      WordCostsOfSlice(words, lo, i);
      TailOfItems(words, WordCosts(words), lo, i, overlap);
    }

    /** The sentence tail of units lo..i, in terms of the whole list. */
    lemma {:induction false} UnitTail(units: seq<string>, lo: nat, i: nat, flushed: seq<string>, overlap: nat)
      requires lo <= i <= |units| && flushed == units[lo..i]
      ensures var t := TailStart(UnitCosts(units), lo, i, overlap);
        var s := TailStart(UnitCosts(flushed), 0, |flushed|, overlap);
        flushed[s..] == units[t..i] && Cost(UnitCosts(flushed), s, |flushed|) == Cost(UnitCosts(units), t, i)
    {
      UnitCostsOfSlice(units, lo, i);
      TailOfItems(units, UnitCosts(units), lo, i, overlap);
    }

    method WordsBefore(ghost words: seq<string>, ghost lo: nat, ghost i: nat, flushed: seq<string>, overlap: nat)
      returns (current: seq<string>, currentTokens: nat)
      requires lo <= i <= |words| && flushed == words[lo..i]
      ensures var t := TailStart(WordCosts(words), lo, i, overlap);
        current == words[t..i] && currentTokens == Cost(WordCosts(words), t, i)
    {
      WordTail(words, lo, i, flushed, overlap);
      current, currentTokens := WordOverlap(flushed, overlap);
    }

    /** The words the next piece starts with: the overlap, unless it leaves no room for the coming word. */
    method NextWords(ghost words: seq<string>, ghost lo: nat, ghost i: nat, flushed: seq<string>, wordTokens: nat,
                     budget: nat, overlap: nat) returns (current: seq<string>, currentTokens: nat)
      requires lo <= i < |words| && flushed == words[lo..i] && wordTokens == WordCost(words[i])
      ensures var t := NextStart(WordCosts(words), lo, i, budget, overlap);
        current == words[t..i] && currentTokens == Cost(WordCosts(words), t, i)
    {
      current, currentTokens := WordsBefore(words, lo, i, flushed, overlap);
      if current != [] && currentTokens + wordTokens > budget {
        current, currentTokens := [], 0;
      }
    }

    lemma {:induction false} WordPiece(words: seq<string>, budget: nat, lo: nat, newFrom: nat, i: nat)
      requires lo < i <= |words|
      ensures WordRenderer(words, budget)(Piece(lo, newFrom, i)) == [Join(" ", words[lo..i])]
    {
    }

    lemma {:induction false} WordOversize(words: seq<string>, budget: nat, i: nat)
      requires i < |words|
      ensures WordRenderer(words, budget)(Oversize(i)) == CharSlices(words[i], SliceSize(budget))
    {
    }

    /** The state of the word loop before word i: units lo..i are open, and what is done plus what the plan still holds
        is the whole plan. */
    ghost predicate WordsAt(words: seq<string>, budget: nat, overlap: nat, lo: nat, newFrom: nat, i: nat,
                            current: seq<string>, currentTokens: nat, pieces: seq<string>) {
      lo <= newFrom <= i <= |words| && current == words[lo..i] && currentTokens == Cost(WordCosts(words), lo, i) &&
      pieces + PiecesOf(words, PlanFrom(WordCosts(words), budget, overlap, lo, newFrom, i), budget)
        == PiecesOf(words, Plan(WordCosts(words), budget, overlap), budget)
    }

    /** Closes the current piece when the next word does not fit, and starts over with its overlap. */
    method MakeRoomForWord(
        ghost words: seq<string>, ghost lo: nat, ghost newFrom: nat, ghost i: nat, done: seq<string>,
        filled: seq<string>, filledTokens: nat, wordTokens: nat, budget: nat, overlap: nat)
      returns (pieces: seq<string>, current: seq<string>, currentTokens: nat, ghost lo': nat, ghost newFrom': nat)
      requires lo <= newFrom <= i < |words| && wordTokens == WordCost(words[i]) <= budget
      requires filled == words[lo..i] && filledTokens == Cost(WordCosts(words), lo, i)
      ensures lo' <= newFrom' <= i && current == words[lo'..i] && currentTokens == Cost(WordCosts(words), lo', i)
      ensures pieces + PiecesOf(words, PlanFrom(WordCosts(words), budget, overlap, lo', newFrom', i + 1), budget)
           == done + PiecesOf(words, PlanFrom(WordCosts(words), budget, overlap, lo, newFrom, i), budget)
    {
      ghost var costs := WordCosts(words);
      if filled != [] && filledTokens + wordTokens > budget {
        RenderFlush(WordRenderer(words, budget), costs, budget, overlap, lo, newFrom, i, done);
        WordPiece(words, budget, lo, newFrom, i);
        pieces := done + [Join(" ", filled)];
        current, currentTokens := NextWords(words, lo, i, filled, wordTokens, budget, overlap);
        lo', newFrom' := NextStart(costs, lo, i, budget, overlap), i;
      } else {
        PlanSkip(costs, budget, overlap, lo, newFrom, i);
        pieces, current, currentTokens, lo', newFrom' := done, filled, filledTokens, lo, newFrom;
      }
    }

    method AddWord(
        ghost words: seq<string>, ghost lo: nat, ghost newFrom: nat, ghost i: nat, done: seq<string>,
        filled: seq<string>, filledTokens: nat, word: string, budget: nat, overlap: nat)
      returns (pieces: seq<string>, current: seq<string>, currentTokens: nat, ghost lo': nat, ghost newFrom': nat)
      requires i < |words| && word == words[i] && WordCost(word) <= budget
      requires WordsAt(words, budget, overlap, lo, newFrom, i, filled, filledTokens, done)
      ensures WordsAt(words, budget, overlap, lo', newFrom', i + 1, current, currentTokens, pieces)
    {
      pieces, current, currentTokens, lo', newFrom' :=
        MakeRoomForWord(words, lo, newFrom, i, done, filled, filledTokens, WordCost(word), budget, overlap);
      SliceGrows(words, lo', i);
      current := current + [word];
      currentTokens := currentTokens + WordCost(word);
    }

    lemma {:induction false} OversizePieces(
        words: seq<string>, budget: nat, overlap: nat, lo: nat, newFrom: nat, i: nat, done: seq<string>)
      requires lo <= newFrom <= i < |words| && WordCost(words[i]) > budget
      ensures done + PiecesOf(words, PlanFrom(WordCosts(words), budget, overlap, lo, newFrom, i), budget)
           == ((if lo < i then done + [Join(" ", words[lo..i])] else done) + CharSlices(words[i], SliceSize(budget)))
              + PiecesOf(words, PlanFrom(WordCosts(words), budget, overlap, i + 1, i + 1, i + 1), budget)
    {
      RenderOversize(WordRenderer(words, budget), WordCosts(words), budget, overlap, lo, newFrom, i, done);
      WordOversize(words, budget, i);
      if lo < i {
        WordPiece(words, budget, lo, newFrom, i);
      } else {
        assert done + [] == done;
      }
    }

    /** A single word larger than the budget: closes the current piece and slices the word by characters. */
    method SliceOversizeWord(
        ghost words: seq<string>, ghost lo: nat, ghost newFrom: nat, ghost i: nat, done: seq<string>,
        current: seq<string>, word: string, budget: nat, ghost overlap: nat) returns (pieces: seq<string>)
      requires lo <= newFrom <= i < |words| && word == words[i] && WordCost(word) > budget && current == words[lo..i]
      ensures pieces + PiecesOf(words, PlanFrom(WordCosts(words), budget, overlap, i + 1, i + 1, i + 1), budget)
           == done + PiecesOf(words, PlanFrom(WordCosts(words), budget, overlap, lo, newFrom, i), budget)
    {
      OversizePieces(words, budget, overlap, lo, newFrom, i, done);
      pieces := done;
      if current != [] {
        pieces := pieces + [Join(" ", current)];
      }
      pieces := pieces + CharSlices(word, SliceSize(budget));
    }

    method PassOversizeWord(
        ghost words: seq<string>, ghost lo: nat, ghost newFrom: nat, ghost i: nat, done: seq<string>,
        current: seq<string>, ghost currentTokens: nat, word: string, budget: nat, ghost overlap: nat)
      returns (pieces: seq<string>)
      requires i < |words| && word == words[i] && WordCost(word) > budget
      requires WordsAt(words, budget, overlap, lo, newFrom, i, current, currentTokens, done)
      ensures WordsAt(words, budget, overlap, i + 1, i + 1, i + 1, [], 0, pieces)
    {
      pieces := SliceOversizeWord(words, lo, newFrom, i, done, current, word, budget, overlap);
    }

    method WordLoop(words: seq<string>, budget: nat, overlap: nat) returns (pieces: seq<string>)
      ensures pieces == PiecesOf(words, Plan(WordCosts(words), budget, overlap), budget)
    {
      pieces := [];
      var current: seq<string> := [];
      var currentTokens: nat := 0;
      ghost var lo: nat, newFrom: nat := 0, 0;
      for i := 0 to |words|
        invariant WordsAt(words, budget, overlap, lo, newFrom, i, current, currentTokens, pieces)
      {
        if WordCost(words[i]) > budget {
          pieces := PassOversizeWord(words, lo, newFrom, i, pieces, current, currentTokens, words[i], budget, overlap);
          current, currentTokens, lo, newFrom := [], 0, i + 1, i + 1;
        } else {
          pieces, current, currentTokens, lo, newFrom :=
            AddWord(words, lo, newFrom, i, pieces, current, currentTokens, words[i], budget, overlap);
        }
      }
      if current != [] {
        RenderOne(WordRenderer(words, budget), Piece(lo, newFrom, |words|));
        WordPiece(words, budget, lo, newFrom, |words|);
        pieces := pieces + [Join(" ", current)];
      }
    }

    method HardSplit(unit: string, budget: nat, overlap: nat) returns (result: seq<string>)
      ensures result == HardPieces(unit, budget, overlap)
    {
      var words := SplitOn(unit, ' ');
      var pieces := WordLoop(words, budget, overlap);
      result := NonBlank(pieces);
    }

    // -------------------------------------------------------------- the sentence loop

    lemma {:induction false} OneMoreChunk(drafts: seq<Draft>, d: Draft)
      ensures Numbered(drafts + [d]) == Numbered(drafts) + [Make(|drafts|, d)]
    {
      NumberOneMore(Maker(), drafts, d);
    }

    method Emit(before: seq<Chunk>, d: Draft, ghost drafts: seq<Draft>) returns (chunks: seq<Chunk>)
      requires before == Numbered(drafts)
      ensures chunks == Numbered(drafts + [d])
    {
      OneMoreChunk(drafts, d);
      chunks := before + [Make(|before|, d)];
    }

    lemma {:induction false} UnitPiece(
        heading: Option<string>, units: seq<string>, budget: nat, overlap: nat, lo: nat, newFrom: nat, i: nat)
      requires lo < i <= |units|
      ensures UnitRenderer(heading, units, budget, overlap)(Piece(lo, newFrom, i)) == [Draft(heading, units[lo..i])]
    {
    }

    lemma {:induction false} UnitOversize(
        heading: Option<string>, units: seq<string>, budget: nat, overlap: nat, i: nat)
      requires i < |units|
      ensures UnitRenderer(heading, units, budget, overlap)(Oversize(i))
           == Singles(heading, HardPieces(units[i], budget, overlap))
    {
    }

    lemma {:induction false} OneMoreSingle(heading: Option<string>, pieces: seq<string>, i: nat, drafts: seq<Draft>)
      requires i < |pieces|
      ensures drafts + Singles(heading, pieces[..i + 1])
           == (drafts + Singles(heading, pieces[..i])) + [Draft(heading, [pieces[i]])]
    {
    }

    method AppendPieces(before: seq<Chunk>, heading: Option<string>, pieces: seq<string>, ghost drafts: seq<Draft>)
      returns (chunks: seq<Chunk>)
      requires before == Numbered(drafts)
      ensures chunks == Numbered(drafts + Singles(heading, pieces))
    {
      chunks := before;
      ghost var emitted := drafts;
      for i := 0 to |pieces|
        invariant chunks == Numbered(emitted) && emitted == drafts + Singles(heading, pieces[..i])
      {
        OneMoreSingle(heading, pieces, i, drafts);
        chunks := Emit(chunks, Draft(heading, [pieces[i]]), emitted);
        emitted := emitted + [Draft(heading, [pieces[i]])];
      }
      assert pieces[..|pieces|] == pieces;
    }

    method UnitsBefore(ghost units: seq<string>, ghost lo: nat, ghost i: nat, flushed: seq<string>, overlap: nat)
      returns (current: seq<string>, currentTokens: nat)
      requires lo <= i <= |units| && flushed == units[lo..i]
      ensures var t := TailStart(UnitCosts(units), lo, i, overlap);
        current == units[t..i] && currentTokens == Cost(UnitCosts(units), t, i)
    {
      UnitTail(units, lo, i, flushed, overlap);
      current, currentTokens := OverlapTail(flushed, overlap);
    }

    /** The sentences the next chunk starts with: the overlap, unless it leaves no room for the coming sentence. */
    method NextUnits(ghost units: seq<string>, ghost lo: nat, ghost i: nat, flushed: seq<string>, unitTokens: nat,
                     budget: nat, overlap: nat) returns (current: seq<string>, currentTokens: nat)
      requires lo <= i < |units| && flushed == units[lo..i] && unitTokens == UnitCost(units[i])
      ensures var t := NextStart(UnitCosts(units), lo, i, budget, overlap);
        current == units[t..i] && currentTokens == Cost(UnitCosts(units), t, i)
    {
      current, currentTokens := UnitsBefore(units, lo, i, flushed, overlap);
      if current != [] && currentTokens + unitTokens > budget {
        current, currentTokens := [], 0;
      }
    }

    /** Closes the current chunk when the next sentence does not fit, and starts over with its overlap. */
    method MakeRoomForUnit(
        ghost units: seq<string>, ghost lo: nat, ghost newFrom: nat, ghost i: nat, ghost done: seq<Draft>,
        before: seq<Chunk>, filled: seq<string>, filledTokens: nat, unitTokens: nat, heading: Option<string>,
        budget: nat, overlap: nat)
      returns (chunks: seq<Chunk>, current: seq<string>, currentTokens: nat,
               ghost drafts: seq<Draft>, ghost lo': nat, ghost newFrom': nat)
      requires lo <= newFrom <= i < |units| && unitTokens == UnitCost(units[i]) <= budget
      requires filled == units[lo..i] && filledTokens == Cost(UnitCosts(units), lo, i)
      requires before == Numbered(done)
      ensures lo' <= newFrom' <= i && current == units[lo'..i] && currentTokens == Cost(UnitCosts(units), lo', i)
      ensures chunks == Numbered(drafts)
      ensures drafts + DraftsOf(heading, units, PlanFrom(UnitCosts(units), budget, overlap, lo', newFrom', i + 1),
                                budget, overlap)
           == done + DraftsOf(heading, units, PlanFrom(UnitCosts(units), budget, overlap, lo, newFrom, i),
                              budget, overlap)
    {
      ghost var costs := UnitCosts(units);
      if filled != [] && filledTokens + unitTokens > budget {
        RenderFlush(UnitRenderer(heading, units, budget, overlap), costs, budget, overlap, lo, newFrom, i, done);
        UnitPiece(heading, units, budget, overlap, lo, newFrom, i);
        chunks := Emit(before, Draft(heading, filled), done);
        drafts := done + [Draft(heading, filled)];
        current, currentTokens := NextUnits(units, lo, i, filled, unitTokens, budget, overlap);
        lo', newFrom' := NextStart(costs, lo, i, budget, overlap), i;
      } else {
        PlanSkip(costs, budget, overlap, lo, newFrom, i);
        chunks, current, currentTokens := before, filled, filledTokens;
        drafts, lo', newFrom' := done, lo, newFrom;
      }
    }

    lemma {:induction false} OversizeDrafts(
        heading: Option<string>, units: seq<string>, budget: nat, overlap: nat, lo: nat, newFrom: nat, i: nat,
        done: seq<Draft>, pieces: seq<string>)
      requires lo <= newFrom <= i < |units| && UnitCost(units[i]) > budget
      requires pieces == HardPieces(units[i], budget, overlap)
      ensures done + DraftsOf(heading, units, PlanFrom(UnitCosts(units), budget, overlap, lo, newFrom, i),
                              budget, overlap)
           == ((if lo < i then done + [Draft(heading, units[lo..i])] else done) + Singles(heading, pieces))
              + DraftsOf(heading, units, PlanFrom(UnitCosts(units), budget, overlap, i + 1, i + 1, i + 1),
                         budget, overlap)
    {
      RenderOversize(UnitRenderer(heading, units, budget, overlap), UnitCosts(units), budget, overlap, lo, newFrom, i,
                     done);
      UnitOversize(heading, units, budget, overlap, i);
      if lo < i {
        UnitPiece(heading, units, budget, overlap, lo, newFrom, i);
      } else {
        assert done + [] == done;
      }
    }

    /** A sentence larger than the budget: closes the current chunk and hard-splits the sentence. */
    method SplitOversizeUnit(ghost done: seq<Draft>, before: seq<Chunk>, current: seq<string>, unit: string,
                             heading: Option<string>, budget: nat, overlap: nat)
      returns (chunks: seq<Chunk>, ghost pieces: seq<string>)
      requires before == Numbered(done)
      ensures pieces == HardPieces(unit, budget, overlap)
      ensures chunks == Numbered((if current != [] then done + [Draft(heading, current)] else done)
                                 + Singles(heading, pieces))
    {
      chunks := before;
      ghost var drafts := done;
      if current != [] {
        chunks := Emit(chunks, Draft(heading, current), drafts);
        drafts := drafts + [Draft(heading, current)];
      }
      var parts := HardSplit(unit, budget, overlap);
      chunks := AppendPieces(chunks, heading, parts, drafts);
      pieces := parts;
    }

    /** The state of the sentence loop before sentence i. */
    ghost predicate UnitsAt(units: seq<string>, heading: Option<string>, budget: nat, overlap: nat, lo: nat,
                            newFrom: nat, i: nat,
                            current: seq<string>, currentTokens: nat, done: seq<Draft>, drafts: seq<Draft>) {
      lo <= newFrom <= i <= |units| && current == units[lo..i] && currentTokens == Cost(UnitCosts(units), lo, i) &&
      drafts + DraftsOf(heading, units, PlanFrom(UnitCosts(units), budget, overlap, lo, newFrom, i), budget, overlap)
        == done + DraftsOf(heading, units, Plan(UnitCosts(units), budget, overlap), budget, overlap)
    }

    method PassOversizeUnit(
        ghost units: seq<string>, ghost lo: nat, ghost newFrom: nat, ghost i: nat, ghost done: seq<Draft>,
        ghost emitted: seq<Draft>, before: seq<Chunk>, current: seq<string>, ghost currentTokens: nat, unit: string,
        heading: Option<string>, budget: nat, overlap: nat)
      returns (chunks: seq<Chunk>, ghost drafts: seq<Draft>)
      requires i < |units| && unit == units[i] && UnitCost(unit) > budget && before == Numbered(emitted)
      requires UnitsAt(units, heading, budget, overlap, lo, newFrom, i, current, currentTokens, done, emitted)
      ensures chunks == Numbered(drafts)
      ensures UnitsAt(units, heading, budget, overlap, i + 1, i + 1, i + 1, [], 0, done, drafts)
    {
      ghost var pieces;
      chunks, pieces := SplitOversizeUnit(emitted, before, current, unit, heading, budget, overlap);
      OversizeDrafts(heading, units, budget, overlap, lo, newFrom, i, emitted, pieces);
      drafts := (if current != [] then emitted + [Draft(heading, current)] else emitted) + Singles(heading, pieces);
    }

    method AddUnit(
        ghost units: seq<string>, ghost lo: nat, ghost newFrom: nat, ghost i: nat, ghost done: seq<Draft>,
        ghost emitted: seq<Draft>, before: seq<Chunk>, filled: seq<string>, filledTokens: nat, unit: string,
        heading: Option<string>, budget: nat, overlap: nat)
      returns (chunks: seq<Chunk>, current: seq<string>, currentTokens: nat,
               ghost drafts: seq<Draft>, ghost lo': nat, ghost newFrom': nat)
      requires i < |units| && unit == units[i] && UnitCost(unit) <= budget && before == Numbered(emitted)
      requires UnitsAt(units, heading, budget, overlap, lo, newFrom, i, filled, filledTokens, done, emitted)
      ensures chunks == Numbered(drafts)
      ensures UnitsAt(units, heading, budget, overlap, lo', newFrom', i + 1, current, currentTokens, done, drafts)
    {
      chunks, current, currentTokens, drafts, lo', newFrom' :=
        MakeRoomForUnit(units, lo, newFrom, i, emitted, before, filled, filledTokens, UnitCost(unit),
                        heading, budget, overlap);
      SliceGrows(units, lo', i);
      current := current + [unit];
      currentTokens := currentTokens + UnitCost(unit);
    }

    /** The end of a section closes the chunk that is still open. */
    method CloseSection(
        heading: Option<string>, ghost units: seq<string>, ghost budget: nat, ghost overlap: nat, ghost lo: nat,
        ghost newFrom: nat, current: seq<string>, before: seq<Chunk>, ghost done: seq<Draft>)
      returns (chunks: seq<Chunk>)
      requires lo <= newFrom <= |units| && current == units[lo..] && before == Numbered(done)
      ensures chunks == Numbered(
        done + DraftsOf(heading, units, PlanFrom(UnitCosts(units), budget, overlap, lo, newFrom, |units|),
                        budget, overlap))
    {
      chunks := before;
      if current != [] {
        RenderOne(UnitRenderer(heading, units, budget, overlap), Piece(lo, newFrom, |units|));
        UnitPiece(heading, units, budget, overlap, lo, newFrom, |units|);
        assert units[lo..|units|] == current;
        chunks := Emit(chunks, Draft(heading, current), done);
      } else {
        assert done + [] == done;
      }
    }

    method UnitLoop(units: seq<string>, heading: Option<string>, budget: nat, overlap: nat, before: seq<Chunk>,
                    ghost done: seq<Draft>) returns (chunks: seq<Chunk>)
      requires before == Numbered(done)
      ensures chunks
           == Numbered(done + DraftsOf(heading, units, Plan(UnitCosts(units), budget, overlap), budget, overlap))
    {
      ghost var drafts := done;
      chunks := before;
      var current: seq<string> := [];
      var currentTokens: nat := 0;
      ghost var lo: nat, newFrom: nat := 0, 0;
      for i := 0 to |units|
        invariant chunks == Numbered(drafts)
        invariant UnitsAt(units, heading, budget, overlap, lo, newFrom, i, current, currentTokens, done, drafts)
      {
        if UnitCost(units[i]) > budget {
          chunks, drafts := PassOversizeUnit(units, lo, newFrom, i, done, drafts, chunks, current, currentTokens,
                                             units[i], heading, budget, overlap);
          current, currentTokens, lo, newFrom := [], 0, i + 1, i + 1;
        } else {
          chunks, current, currentTokens, drafts, lo, newFrom :=
            AddUnit(units, lo, newFrom, i, done, drafts, chunks, current, currentTokens, units[i],
                    heading, budget, overlap);
        }
      }
      chunks := CloseSection(heading, units, budget, overlap, lo, newFrom, current, chunks, drafts);
    }

    method SplitSection(section: Section, before: seq<Chunk>, ghost done: seq<Draft>) returns (chunks: seq<Chunk>)
      requires before == Numbered(done)
      ensures chunks == Numbered(done + SectionDrafts(section))
    {
      var heading := HeadingOf(section.path);
      var budget := Budget(PrefixOf(heading));
      chunks := UnitLoop(section.units, heading, budget, OverlapBudget(budget), before, done);
    }

    lemma {:induction false} OneMoreSection(sections: seq<Section>, i: nat, drafts: seq<Draft>)
      requires i < |sections|
      ensures drafts + AllDrafts(sections[i..]) == (drafts + SectionDrafts(sections[i])) + AllDrafts(sections[i + 1..])
    {
      assert sections[i..][1..] == sections[i + 1..];
    }

    /** A tiny last chunk is folded into its predecessor when both have the same heading and fit together. */
    predicate Foldable(previous: Chunk, last: Chunk) {
      last.tokenCount < minTokens && last.heading == previous.heading &&
      previous.tokenCount + last.tokenCount <= chunkTokens
    }

    function Folded(previous: Chunk, last: Chunk): Chunk {
      var tail := Strip(RemovePrefix(last.content, TitleOf(previous.heading)));
      var content := Strip(previous.content + " " + tail);
      Chunk(previous.ordinal, content, count(content), previous.heading)
    }

    function MergeTrailingStub(chunks: seq<Chunk>): seq<Chunk> {
      var n := |chunks|;
      if n < 2 || !Foldable(chunks[n - 2], chunks[n - 1]) then chunks
      else chunks[..n - 2] + [Folded(chunks[n - 2], chunks[n - 1])]
    }

    /** The last chunk is folded exactly if it is smaller than the minimum, has the heading of the one before, and fits
        in together with it; the chunk it is folded into keeps its place and its heading. */
    ghost predicate FoldsLast(chunks: seq<Chunk>, result: seq<Chunk>) {
      var n := |chunks|;
      if n >= 2 && chunks[n - 1].tokenCount < minTokens && chunks[n - 1].heading == chunks[n - 2].heading &&
         chunks[n - 2].tokenCount + chunks[n - 1].tokenCount <= chunkTokens
      then
        |result| == n - 1 && result[..n - 2] == chunks[..n - 2] && result[n - 2].ordinal == chunks[n - 2].ordinal &&
        result[n - 2].heading == chunks[n - 2].heading && result[n - 2].tokenCount == count(result[n - 2].content)
      else result == chunks
    }

    method FoldTrailingStub(chunks: seq<Chunk>) returns (result: seq<Chunk>)
      ensures result == MergeTrailingStub(chunks)
      ensures FoldsLast(chunks, result)
    {
      result := chunks;
      if |result| < 2 {
        return;
      }
      var previous, last := result[|result| - 2], result[|result| - 1];
      if Foldable(previous, last) {
        var merged := Folded(previous, last);
        ReplaceLastTwo(result, merged);
        result := result[|result| - 2 := merged];
        result := result[..|result| - 1];
      }
    }

    method Split(text: string) returns (result: seq<Chunk>)
      ensures result == MergeTrailingStub(Numbered(AllDrafts(SectionsFrom(ReadDocument(text), [], []))))
    {
      var sections := IterSections(text);
      var chunks: seq<Chunk> := [];
      ghost var drafts: seq<Draft> := [];
      for i := 0 to |sections|
        invariant chunks == Numbered(drafts) && drafts + AllDrafts(sections[i..]) == AllDrafts(sections)
      {
        OneMoreSection(sections, i, drafts);
        chunks := SplitSection(sections[i], chunks, drafts);
        drafts := drafts + SectionDrafts(sections[i]);
      }
      assert drafts + [] == drafts;
      result := FoldTrailingStub(chunks);
    }

    // -------------------------------------------------------------- the trailing stub
  }

  lemma {:induction false} PlanFits(costs: seq<nat>, budget: nat, overlap: nat)
    ensures Tiles(Plan(costs, budget, overlap), 0, |costs|) && Fit(Plan(costs, budget, overlap), |costs|)
    ensures WellPlanned(costs, budget, overlap, Plan(costs, budget, overlap))
  {
    PlanSound(costs, budget, overlap, 0, 0, 0);
    TilesFit(Plan(costs, budget, overlap), 0, |costs|);
  }
}
