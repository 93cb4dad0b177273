/** How many tokens a chunk can have when the offline estimate does the counting. The budget bounds the sum over the
    sentences; joining them costs up to three quarters of a token for each. */
module ChunkTokens {
  import opened Outcomes
  import opened Text
  import opened OverlapPlanner
  import opened Chunking
  import ChunkerGuarantees
  import opened TokenEstimate

  // ---------------------------------------------------------------- the words of a chunk

  lemma {:induction false} JoinedWords(a: string, b: string)
    ensures Words(a + " " + b) == Words(a) + Words(b)
  {
    WordsApart(a, " " + b);
    SpaceThenText(' ', b);
    assert a + " " + b == a + (" " + b);
  }

  lemma {:induction false} WordsOfJoined(a: string, b: string, first: seq<string>, rest: seq<string>)
    requires Words(a) == first && Words(b) == rest
    ensures Words(a + " " + b) == first + rest
  {
    JoinedWords(a, b);
  }

  /** Neither stripping nor joining changes the words. */
  lemma {:induction false} WordsOfParts(parts: seq<string>)
    ensures Words(Join(" ", Mapped(Strip, parts))) == WordsIn(parts)
  {
    if parts != [] {
      var first, rest := parts[0], parts[1..];
      assert parts == [first] + rest;
      WordsOfParts(rest);
      WordsOfStrip(first);
      MappedMore(Strip, first, rest);
      JoinMore(" ", Strip(first), Mapped(Strip, rest));
      if rest != [] {
        WordsOfJoined(Strip(first), Join(" ", Mapped(Strip, rest)), Words(first), WordsIn(rest));
      } else {
        assert Words(first) + [] == Words(first);
      }
    }
  }

  lemma {:induction false} BodyWords(units: seq<string>)
    ensures Words(BodyOf(units)) == WordsIn(units)
  {
    WordsOfParts(NonBlank(units));
    WordsOfNonBlank(units);
  }

  lemma {:induction false} LineWords(title: string, body: string)
    ensures Words(HeadingLine(title) + body) == Words(title) + Words(body)
  {
    if title == "" {
      assert HeadingLine(title) + body == body;
    } else {
      WordsApart(title, "\n" + body);
      SpaceThenText('\n', body);
      assert title + "\n" + body == title + ("\n" + body);
    }
  }

  lemma {:induction false} LineAndBody(title: string, body: string, words: seq<string>)
    requires Words(body) == words
    ensures Words(Strip(HeadingLine(title) + body)) == Words(title) + words
  {
    WordsOfStrip(HeadingLine(title) + body);
    LineWords(title, body);
  }

  /** The words of a chunk are those of its heading and of its sentences. */
  lemma {:induction false} ContentWords(title: string, units: seq<string>)
    ensures Words(Strip(HeadingLine(title) + BodyOf(units))) == WordsIn([title] + units)
  {
    BodyWords(units);
    LineAndBody(title, BodyOf(units), WordsIn(units));
    WordsInMore(title, units);
  }

  // ---------------------------------------------------------------- adding estimates up

  lemma {:induction false} CountAllAppend(p: char -> bool, a: seq<string>, b: seq<string>)
    ensures CountAll(p, a + b) == CountAll(p, a) + CountAll(p, b)
    ensures TotalLength(a + b) == TotalLength(a) + TotalLength(b)
  {
    if a == [] {
      assert a + b == b;
    } else {
      assert (a + b)[0] == a[0] && (a + b)[1..] == a[1..] + b;
      CountAllAppend(p, a[1..], b);
    }
  }

  /** Joining two texts adds the space between them. */
  lemma {:induction false} QuartersAdd(a: seq<string>, b: seq<string>)
    requires a != [] && b != []
    ensures QuartersOf(a + b) <= QuartersOf(a) + QuartersOf(b) + 1
  {
    CountAllAppend(IsArabic, a, b);
    CountAllAtMost(IsArabic, a);
    CountAllAtMost(IsArabic, b);
  }

  /** An estimate is at most half a token off its quarters. */
  lemma {:induction false} RoundingLosesHalf(q: nat)
    ensures q <= 4 * FromQuarters(q) + 2
    ensures FromQuarters(q) <= 1 || 4 * FromQuarters(q) <= q + 2
  {
  }

  function SumOf(count: string -> nat, units: seq<string>): nat {
    if units == [] then 0 else count(units[0]) + SumOf(count, units[1..])
  }

  function EstimateSum(units: seq<string>): nat {
    SumOf(EstimateTokens, units)
  }

  /** How many of the texts have any word at all. */
  function Worded(units: seq<string>): (k: nat)
    ensures k <= |units|
  {
    if units == [] then 0 else (if Words(units[0]) == [] then 0 else 1) + Worded(units[1..])
  }

  lemma {:induction false} QuartersOfUnit(unit: string)
    requires Words(unit) != []
    ensures QuartersOf(Words(unit)) <= 4 * EstimateTokens(unit) + 2
  {
    EstimateSeesWords(unit);
    RoundingLosesHalf(QuartersOf(Words(unit)));
  }

  /** Every text loses at most half a token to rounding, and every joint adds a quarter. */
  lemma {:induction false} QuartersOfAll(units: seq<string>)
    requires WordsIn(units) != []
    ensures 0 < Worded(units) && QuartersOf(WordsIn(units)) + 1 <= 4 * EstimateSum(units) + 3 * Worded(units)
  {
    var first, rest := Words(units[0]), WordsIn(units[1..]);
    if first == [] {
      assert WordsIn(units) == rest;
      QuartersOfAll(units[1..]);
    } else {
      QuartersOfUnit(units[0]);
      if rest == [] {
        assert WordsIn(units) == first;
      } else {
        QuartersOfAll(units[1..]);
        QuartersAdd(first, rest);
      }
    }
  }

  lemma {:induction false} EstimateOfAll(units: seq<string>)
    ensures EstimateOf(WordsIn(units)) <= EstimateSum(units) + (3 * Worded(units) + 1) / 4
  {
    if WordsIn(units) != [] {
      QuartersOfAll(units);
      RoundingLosesHalf(QuartersOf(WordsIn(units)));
    }
  }

  // ---------------------------------------------------------------- the tokens of a chunk

  /** The chunker counts with the offline estimate: a chunk counts the estimate of its words. */
  lemma {:induction false} TokensOfWords(c: TokenAwareChunker, ordinal: nat, heading: Option<string>,
                                         units: seq<string>)
    requires c.count == EstimateTokens
    ensures c.Make(ordinal, Draft(heading, units)).tokenCount == EstimateOf(WordsIn([TitleOf(heading)] + units))
  {
    ContentWords(TitleOf(heading), units);
    EstimateSeesWords(Strip(PrefixOf(heading) + BodyOf(units)));
  }

  /** Every text costs at least what it counts. */
  predicate Covers(c: TokenAwareChunker, costs: seq<nat>, units: seq<string>) {
    |costs| == |units| && forall i :: 0 <= i < |units| ==> c.count(units[i]) <= costs[i]
  }

  lemma {:induction false} SumWithinCost(c: TokenAwareChunker, costs: seq<nat>, units: seq<string>, lo: nat, hi: nat)
    requires Covers(c, costs, units) && lo <= hi <= |units|
    ensures SumOf(c.count, units[lo..hi]) <= Cost(costs, lo, hi)
    decreases hi - lo
  {
    if lo < hi {
      CostSplit(costs, lo, lo + 1, hi);
      SumWithinCost(c, costs, units, lo + 1, hi);
      assert Cost(costs, lo, lo + 1) == Cost(costs, lo, lo) + costs[lo];
      assert units[lo..hi][0] == units[lo] && units[lo..hi][1..] == units[lo + 1..hi];
    }
  }

  lemma {:induction false} SameWords(a: string, b: string)
    requires Words(a) == Words(b)
    ensures EstimateTokens(a) == EstimateTokens(b)
  {
    EstimateSeesWords(a);
    EstimateSeesWords(b);
  }

  lemma {:induction false} LineEstimate(title: string)
    ensures EstimateTokens(HeadingLine(title)) == EstimateTokens(title)
  {
    LineWords(title, "");
    assert HeadingLine(title) + "" == HeadingLine(title);
    assert Words("") == [];
    SameWords(title, HeadingLine(title));
  }

  lemma {:induction false} CountsAreEstimates(c: TokenAwareChunker, text: string, units: seq<string>)
    requires c.count == EstimateTokens
    ensures c.count(text) == EstimateTokens(text) && SumOf(c.count, units) == EstimateSum(units)
  {
  }

  lemma {:induction false} PartsOf(title: string, units: seq<string>)
    ensures EstimateSum([title] + units) == EstimateTokens(title) + EstimateSum(units)
    ensures Worded([title] + units) <= |units| + 1
  {
    assert ([title] + units)[1..] == units;
  }

  /** Heading and sentences together, and three quarters of a token for each of them. */
  lemma {:induction false} EstimateOfParts(title: string, units: seq<string>)
    ensures EstimateOf(WordsIn([title] + units)) <=
      EstimateTokens(HeadingLine(title)) + EstimateSum(units) + (3 * |units| + 4) / 4
  {
    EstimateOfAll([title] + units);
    LineEstimate(title);
    PartsOf(title, units);
  }

  lemma {:induction false} WithinBudget(c: TokenAwareChunker, prefix: string, costs: seq<nat>, units: seq<string>,
                                        s: Span)
    requires Covers(c, costs, units) && s.Piece? && SpanOk(costs, c.Budget(prefix), s)
    ensures var sum := SumOf(c.count, units[s.lo..s.hi]);
      c.count(prefix) + sum <= c.chunkTokens || sum <= c.minTokens
  {
    SumWithinCost(c, costs, units, s.lo, s.hi);
  }

  lemma {:induction false} EstimatesWithinBudget(c: TokenAwareChunker, prefix: string, costs: seq<nat>,
                                                 units: seq<string>, s: Span, piece: seq<string>)
    requires c.count == EstimateTokens && Covers(c, costs, units) && s.Piece? && SpanOk(costs, c.Budget(prefix), s)
    requires piece == units[s.lo..s.hi]
    ensures EstimateTokens(prefix) + EstimateSum(piece) <= c.chunkTokens || EstimateSum(piece) <= c.minTokens
  {
    WithinBudget(c, prefix, costs, units, s);
    CountsAreEstimates(c, prefix, piece);
  }

  lemma {:induction false} CostsCover(c: TokenAwareChunker, texts: seq<string>)
    ensures Covers(c, c.UnitCosts(texts), texts) && Covers(c, c.WordCosts(texts), texts)
  {
  }

  /** What a chunk of these sentences counts. */
  lemma {:induction false} TokensOfParts(c: TokenAwareChunker, ordinal: nat, heading: Option<string>,
                                         units: seq<string>)
    returns (tokens: nat)
    requires c.count == EstimateTokens
    ensures tokens == c.Make(ordinal, Draft(heading, units)).tokenCount
    ensures tokens <= EstimateTokens(PrefixOf(heading)) + EstimateSum(units) + (3 * |units| + 4) / 4
  {
    tokens := EstimateOf(WordsIn([TitleOf(heading)] + units));
    TokensOfWords(c, ordinal, heading, units);
    EstimateOfParts(TitleOf(heading), units);
  }

  /** A chunk with whole sentences exceeds the setting by no more than three quarters of a token for the heading and
      each sentence - where the heading leaves room for more than the minimum, otherwise the minimum and the heading
      do. */
  lemma {:induction false} ChunkBound(
      c: TokenAwareChunker, heading: Option<string>, units: seq<string>, ordinal: nat, s: Span, piece: seq<string>)
    returns (tokens: nat)
    requires c.count == EstimateTokens
    requires s.Piece? && SpanOk(c.UnitCosts(units), c.Budget(PrefixOf(heading)), s) && piece == units[s.lo..s.hi]
    ensures tokens == c.Make(ordinal, Draft(heading, piece)).tokenCount
    ensures var slack := (3 * |piece| + 4) / 4;
      tokens <= c.chunkTokens + slack || tokens <= c.minTokens + c.count(PrefixOf(heading)) + slack
  {
    tokens := TokensOfParts(c, ordinal, heading, piece);
    CostsCover(c, units);
    EstimatesWithinBudget(c, PrefixOf(heading), c.UnitCosts(units), units, s, piece);
  }

  // ---------------------------------------------------------------- the tokens of a split sentence

  lemma {:induction false} JoiningKeepsWords(words: seq<string>)
    ensures Words(Join(" ", words)) == WordsIn(words)
  {
    if words != [] {
      var first, rest := words[0], words[1..];
      JoiningKeepsWords(rest);
      if rest != [] {
        WordsOfJoined(first, Join(" ", rest), Words(first), WordsIn(rest));
      } else {
        assert Words(first) + [] == Words(first);
      }
    }
  }

  lemma {:induction false} SameBehindTitle(title: string, piece: string, words: seq<string>)
    requires Words(piece) == WordsIn(words)
    ensures WordsIn([title] + [piece]) == WordsIn([title] + words)
  {
    WordsInMore(piece, []);
    assert [piece] + [] == [piece] && WordsIn(words) + [] == WordsIn(words);
    WordsInMore(title, [piece]);
    WordsInMore(title, words);
  }

  lemma {:induction false} TokensOfPiece(c: TokenAwareChunker, ordinal: nat, heading: Option<string>,
                                         words: seq<string>)
    returns (tokens: nat)
    requires c.count == EstimateTokens
    ensures tokens == c.Make(ordinal, Draft(heading, [Join(" ", words)])).tokenCount
    ensures tokens <= EstimateTokens(PrefixOf(heading)) + EstimateSum(words) + (3 * |words| + 4) / 4
  {
    tokens := EstimateOf(WordsIn([TitleOf(heading)] + words));
    TokensOfWords(c, ordinal, heading, [Join(" ", words)]);
    JoiningKeepsWords(words);
    SameBehindTitle(TitleOf(heading), Join(" ", words), words);
    EstimateOfParts(TitleOf(heading), words);
  }

  /** The same bound for a piece of a sentence that is too long for the budget, with its words for the sentences. */
  lemma {:induction false} PieceBound(
      c: TokenAwareChunker, heading: Option<string>, words: seq<string>, ordinal: nat, s: Span, piece: seq<string>)
    returns (tokens: nat)
    requires c.count == EstimateTokens
    requires s.Piece? && SpanOk(c.WordCosts(words), c.Budget(PrefixOf(heading)), s) && piece == words[s.lo..s.hi]
    ensures tokens == c.Make(ordinal, Draft(heading, [Join(" ", piece)])).tokenCount
    ensures var slack := (3 * |piece| + 4) / 4;
      tokens <= c.chunkTokens + slack || tokens <= c.minTokens + c.count(PrefixOf(heading)) + slack
  {
    tokens := TokensOfPiece(c, ordinal, heading, piece);
    CostsCover(c, words);
    EstimatesWithinBudget(c, PrefixOf(heading), c.WordCosts(words), words, s, piece);
  }

  lemma {:induction false} CollapseShrinks(s: string)
    ensures |Collapse(s)| <= |s|
    decreases |s|
  {
    if s != "" {
      CollapseShrinks(s[1..]);
    }
  }

  lemma {:induction false} NormaliseShrinks(text: string)
    ensures |Normalise(text)| <= |text|
  {
    CollapseShrinks(text);
  }

  lemma {:induction false} LettersOfWords(words: seq<string>)
    requires AllWords(words)
    ensures |words| <= TotalLength(words)
  {
    if words != [] {
      assert IsWord(words[0]);
      LettersOfWords(words[1..]);
    }
  }

  /** At most half of the characters begin a word. */
  predicate FewWords(words: seq<string>, letters: nat) {
    2 * |words| - 1 <= TotalLength(words) + |words| - 1 <= letters
  }

  lemma {:induction false} WordsInText(text: string, words: seq<string>)
    requires words != [] && AllWords(words) && Normalise(text) == Join(" ", words)
    ensures FewWords(words, |text|)
  {
    NormaliseShrinks(text);
    JoinedCounts(IsArabic, words);
    LettersOfWords(words);
  }

  lemma {:induction false} FewWordsIn(text: string)
    requires Words(text) != []
    ensures FewWords(Words(text), |text|)
  {
    SplitGivesWords(text);
    NormalisedIsWords(text);
    WordsInText(text, Words(text));
  }

  lemma {:induction false} EstimateOfFew(words: seq<string>, n: nat, tokens: nat)
    requires words != [] && FewWords(words, n) && tokens == EstimateOf(words)
    ensures tokens <= (n + 1) / 2
  {
    CountAllAtMost(IsArabic, words);
    RoundingLosesHalf(QuartersOf(words));
  }

  lemma {:induction false} HalfATokenEach(text: string, words: seq<string>, tokens: nat)
    requires words == Words(text) && tokens == EstimateOf(words)
    ensures tokens <= (|text| + 1) / 2
  {
    if words != [] {
      FewWordsIn(text);
      EstimateOfFew(words, |text|, tokens);
    }
  }

  lemma {:induction false} TokensOfText(text: string) returns (tokens: nat)
    ensures tokens == EstimateTokens(text) == EstimateOf(Words(text))
  {
    tokens := EstimateTokens(text);
    EstimateSeesWords(text);
  }

  lemma {:induction false} SumOfOne(count: string -> nat, unit: string, tokens: nat)
    requires count(unit) == tokens
    ensures SumOf(count, [unit]) == tokens
  {
    assert [unit][1..] == [];
  }

  /** No text counts more than half a token for each of its characters. */
  lemma {:induction false} EstimateOfSlice(slice: string, size: nat)
    requires |slice| <= size
    ensures EstimateSum([slice]) <= (size + 1) / 2
  {
    var tokens := TokensOfText(slice);
    HalfATokenEach(slice, Words(slice), tokens);
    SumOfOne(EstimateTokens, slice, tokens);
  }

  /** A slice of a word that is larger than the whole budget can count one and a half budgets. */
  lemma {:induction false} SliceBound(
      c: TokenAwareChunker, heading: Option<string>, ordinal: nat, slice: string, size: nat)
    returns (tokens: nat)
    requires c.count == EstimateTokens && |slice| <= size
    ensures tokens == c.Make(ordinal, Draft(heading, [slice])).tokenCount
    ensures tokens <= c.count(PrefixOf(heading)) + (size + 1) / 2 + 1
  {
    tokens := TokensOfParts(c, ordinal, heading, [slice]);
    EstimateOfSlice(slice, size);
  }

  // ---------------------------------------------------------------- the bound is reached

  function Copies(word: string, n: nat): (units: seq<string>)
    ensures |units| == n && forall i :: 0 <= i < n ==> units[i] == word
  {
    if n == 0 then [] else [word] + Copies(word, n - 1)
  }

  lemma {:induction false} NoSpaceInside(word: string, i: nat)
    requires IsWord(word) && i < |word|
    ensures !IsSpace(word[i])
  {
  }

  lemma {:induction false} OneWord(word: string)
    requires IsWord(word)
    ensures Words(word) == [word]
  {
    var w, rest := LeadingWord(word);
    if rest != "" {
      NoSpaceInside(word, |w|);
    }
    assert w + "" == w;
  }

  lemma {:induction false} CopiesAreWords(word: string, n: nat)
    requires IsWord(word)
    ensures WordsIn(Copies(word, n)) == Copies(word, n)
  {
    if n > 0 {
      OneWord(word);
      CopiesAreWords(word, n - 1);
      assert Copies(word, n)[1..] == Copies(word, n - 1);
    }
  }

  lemma {:induction false} CopiesCount(word: string, n: nat)
    requires Count(IsArabic, word) == 0
    ensures CountAll(IsArabic, Copies(word, n)) == 0 && TotalLength(Copies(word, n)) == n * |word|
  {
    if n > 0 {
      CopiesCount(word, n - 1);
      assert Copies(word, n)[1..] == Copies(word, n - 1);
      assert n * |word| == |word| + (n - 1) * |word|;
    }
  }

  lemma {:induction false} EstimateFromLetters(words: seq<string>, letters: nat)
    requires words != [] && CountAll(IsArabic, words) == 0 && TotalLength(words) == letters && letters >= 3 * |words|
    ensures EstimateOf(words) == FromQuarters(letters + |words| - 1)
  {
  }

  lemma {:induction false} AtLeastTriple(n: nat, length: nat)
    requires length >= 3
    ensures n * length >= 3 * n
  {
  }

  /** n copies of a long word without Arabic letters. */
  lemma {:induction false} EstimateOfCopies(word: string, n: nat, letters: nat)
    requires IsWord(word) && Count(IsArabic, word) == 0 && |word| >= 3 && n > 0 && letters == n * |word|
    ensures EstimateOf(Copies(word, n)) == FromQuarters(letters + n - 1)
  {
    CopiesCount(word, n);
    AtLeastTriple(n, |word|);
    EstimateFromLetters(Copies(word, n), letters);
  }

  /** One piece takes all the units if their sum fits. */
  lemma {:induction false} OnePiece(costs: seq<nat>, budget: nat, overlap: nat, i: nat)
    requires 0 < |costs| && i <= |costs| && Cost(costs, 0, |costs|) <= budget
    ensures PlanFrom(costs, budget, overlap, 0, 0, i) == [Piece(0, 0, |costs|)]
    decreases |costs| - i
  {
    if i < |costs| {
      CostSplit(costs, 0, i + 1, |costs|);
      OnePiece(costs, budget, overlap, i + 1);
    }
  }

  lemma {:induction false} CopiesCost(c: TokenAwareChunker, word: string, n: nat, k: nat)
    requires k <= n
    ensures Cost(c.UnitCosts(Copies(word, n)), 0, k) == k * c.count(word)
  {
    if k > 0 {
      CopiesCost(c, word, n, k - 1);
      assert k * c.count(word) == (k - 1) * c.count(word) + c.count(word);
    }
  }

  lemma {:induction false} CopiesPlan(c: TokenAwareChunker, word: string, n: nat)
    requires c.count("") == 0 && c.Valid() && 0 < n && n * c.count(word) <= c.chunkTokens
    ensures c.SectionPlan(Section([], Copies(word, n))) == [Piece(0, 0, n)] && c.Budget("") == c.chunkTokens
  {
    CopiesCost(c, word, n, n);
    OnePiece(c.UnitCosts(Copies(word, n)), c.chunkTokens, c.OverlapBudget(c.chunkTokens), 0);
  }

  lemma {:induction false} OneOfThem(n: nat, cost: nat)
    requires 0 < n
    ensures cost <= n * cost
  {
  }

  /** A section without a heading whose sentences fill the budget becomes one chunk. */
  lemma {:induction false} CopiesInOneChunk(c: TokenAwareChunker, word: string, n: nat)
    requires c.count("") == 0 && c.Valid() && 0 < n && n * c.count(word) <= c.chunkTokens
    ensures c.SectionDrafts(Section([], Copies(word, n))) == [Draft(None, Copies(word, n))]
  {
    var units := Copies(word, n);
    CopiesPlan(c, word, n);
    OneOfThem(n, c.count(word));
    ChunkerGuarantees.FittingSection(c, Section([], units));
    assert Carried(units, Piece(0, 0, n)) == units;
  }

  lemma {:induction false} EstimateOfOne(word: string)
    requires IsWord(word) && Count(IsArabic, word) == 0 && |word| >= 3
    ensures EstimateOf([word]) == FromQuarters(|word|)
  {
    EstimateOfCopies(word, 1, |word|);
    assert Copies(word, 1) == [word];
  }

  lemma {:induction false} WordCountsAlone(word: string)
    requires IsWord(word) && Count(IsArabic, word) == 0 && |word| >= 3
    ensures EstimateTokens(word) == FromQuarters(|word|)
  {
    EstimateSeesWords(word);
    OneWord(word);
    EstimateOfOne(word);
  }

  lemma {:induction false} WordsWithoutTitle(word: string, n: nat)
    requires IsWord(word)
    ensures WordsIn([TitleOf(None)] + Copies(word, n)) == Copies(word, n)
  {
    assert ([""] + Copies(word, n))[1..] == Copies(word, n);
    assert Words("") == [];
    CopiesAreWords(word, n);
  }

  lemma {:induction false} EstimateWithoutTitle(word: string, n: nat, letters: nat)
    requires IsWord(word) && Count(IsArabic, word) == 0 && |word| >= 3 && n > 0 && letters == n * |word|
    ensures EstimateOf(WordsIn([TitleOf(None)] + Copies(word, n))) == FromQuarters(letters + n - 1)
  {
    WordsWithoutTitle(word, n);
    EstimateOfCopies(word, n, letters);
  }

  lemma {:induction false} TokensOfCopies(c: TokenAwareChunker, word: string, n: nat, letters: nat)
    requires c.count == EstimateTokens && IsWord(word) && Count(IsArabic, word) == 0 && |word| >= 3 && n > 0
    requires letters == n * |word|
    ensures c.Make(0, Draft(None, Copies(word, n))).tokenCount == FromQuarters(letters + n - 1)
  {
    TokensOfWords(c, 0, None, Copies(word, n));
    EstimateWithoutTitle(word, n, letters);
  }

  lemma {:induction false} RoundedQuarters(length: nat, n: nat) returns (letters: nat)
    requires (length == 9 || length == 10) && n == 250
    ensures letters == n * length && FromQuarters(length) == 2
    ensures FromQuarters(letters + n - 1) == if length == 9 then 625 else 687
  {
    letters := if length == 9 then 2250 else 2500;
  }

  lemma {:induction false} NothingCounts()
    ensures EstimateTokens("") == 0
  {
  }

  lemma {:induction false} TwoEach(c: TokenAwareChunker, word: string)
    requires c.count == EstimateTokens && IsWord(word) && Count(IsArabic, word) == 0 && (|word| == 9 || |word| == 10)
    ensures c.count(word) == 2 && c.count("") == 0
  {
    var letters := RoundedQuarters(|word|, 250);
    WordCountsAlone(word);
    NothingCounts();
  }

  lemma {:induction false} FillTheSetting(c: TokenAwareChunker, word: string, n: nat)
    requires c.count(word) == 2 && c.count("") == 0 && c.Valid() && c.chunkTokens == 500 && n == 250
    ensures c.SectionDrafts(Section([], Copies(word, n))) == [Draft(None, Copies(word, n))]
  {
    CopiesInOneChunk(c, word, n);
  }

  /** 250 sentences of one word of nine or ten letters, none of them Arabic, count 2 tokens each and fill a setting of
      500, so that they become one chunk. It counts 625 with nine letters, and 687 with ten: 500 and three quarters of a
      token for each sentence, so the bound leaves out nothing but a heading. */
  lemma {:induction false} FullChunkExceedsTheSetting(c: TokenAwareChunker, word: string, n: nat)
    requires c.count == EstimateTokens && c.Valid() && c.chunkTokens == 500 && n == 250
    requires IsWord(word) && Count(IsArabic, word) == 0 && (|word| == 9 || |word| == 10)
    ensures c.SectionDrafts(Section([], Copies(word, n))) == [Draft(None, Copies(word, n))]
    ensures c.Make(0, Draft(None, Copies(word, n))).tokenCount == if |word| == 9 then 625 else 500 + (3 * n + 1) / 4
  {
    var letters := RoundedQuarters(|word|, n);
    TwoEach(c, word);
    FillTheSetting(c, word, n);
    TokensOfCopies(c, word, n, letters);
  }

  lemma {:induction false} CountsOfOne(p: char -> bool, word: string)
    ensures CountAll(p, [word]) == Count(p, word) && TotalLength([word]) == |word|
  {
    assert [word][1..] == [];
  }

  lemma {:induction false} EstimateOfArabic(word: string)
    requires Count(IsArabic, word) == |word| >= 2
    ensures EstimateOf([word]) == FromQuarters(2 * |word|)
  {
    CountsOfOne(IsArabic, word);
  }

  lemma {:induction false} ArabicWordAlone(word: string)
    requires IsWord(word) && Count(IsArabic, word) == |word| >= 2
    ensures EstimateTokens(word) == FromQuarters(2 * |word|)
    ensures EstimateOf(WordsIn([TitleOf(None)] + [word])) == FromQuarters(2 * |word|)
  {
    EstimateSeesWords(word);
    OneWord(word);
    EstimateOfArabic(word);
    WordsWithoutTitle(word, 1);
    assert Copies(word, 1) == [word];
  }

  lemma {:induction false} HalvesRounded(budget: nat)
    requires budget > 0
    ensures var tokens := FromQuarters(2 * (3 * budget));
      tokens > budget && 3 * budget - 1 <= 2 * tokens <= 3 * budget + 1
  {
  }

  lemma {:induction false} OneSlice(word: string, size: nat)
    requires 0 < size == |word|
    ensures CharSlices(word, size) == [word]
  {
  }

  /** An Arabic word of three letters for each token of the budget is larger than the budget and left in one slice,
      which counts one and a half budgets, rounded. */
  lemma {:induction false} ArabicSliceExceedsTheBudget(c: TokenAwareChunker, word: string, budget: nat)
    requires c.count == EstimateTokens && IsWord(word) && Count(IsArabic, word) == |word| == 3 * budget
    ensures c.WordCost(word) > budget && CharSlices(word, c.SliceSize(budget)) == [word]
    ensures 3 * budget - 1 <= 2 * c.Make(0, Draft(None, [word])).tokenCount <= 3 * budget + 1
  {
    ArabicWordAlone(word);
    HalvesRounded(budget);
    OneSlice(word, 3 * budget);
    TokensOfWords(c, 0, None, [word]);
  }
}
