/** The offline token counter: an estimate from characters and words, and truncation to a token budget. */
module TokenEstimate {
  import opened Text

  predicate IsArabic(c: char) {
    var n := c as int;
    0x600 <= n <= 0x6ff || 0x750 <= n <= 0x77f || 0x8a0 <= n <= 0x8ff || 0xfb50 <= n <= 0xfdff || 0xfe70 <= n <= 0xfeff
  }

  predicate IsBlankChar(c: char) {
    c == ' '
  }

  // ---------------------------------------------------------------- words

  /** Every run of white space becomes one space. */
  function Collapse(s: string): string {
    if s == "" then ""
    else if !IsSpace(s[0]) then [s[0]] + Collapse(s[1..])
    else if |s| > 1 && IsSpace(s[1]) then Collapse(s[1..])
    else " " + Collapse(s[1..])
  }

  function Normalise(s: string): string {
    Strip(Collapse(s))
  }

  function WordLength(s: string): (k: nat)
    ensures k <= |s|
    ensures s != "" && !IsSpace(s[0]) ==> k > 0
  {
    if s == "" || IsSpace(s[0]) then 0 else 1 + WordLength(s[1..])
  }

  /** str.split without arguments. */
  function Words(s: string): seq<string>
    decreases |s|
  {
    if s == "" then []
    else if IsSpace(s[0]) then Words(s[1..])
    else [s[..WordLength(s)]] + Words(s[WordLength(s)..])
  }

  predicate IsWord(w: string) {
    w != "" && forall i :: 0 <= i < |w| ==> !IsSpace(w[i])
  }

  predicate AllWords(words: seq<string>) {
    forall i :: 0 <= i < |words| ==> IsWord(words[i])
  }

  lemma {:induction false} WordEnds(s: string)
    ensures var k := WordLength(s);
      (forall i :: 0 <= i < k ==> !IsSpace(s[i])) && (k < |s| ==> IsSpace(s[k]))
  {
    if s != "" && !IsSpace(s[0]) {
      WordEnds(s[1..]);
      var k := WordLength(s[1..]);
      assert forall i :: 1 <= i < k + 1 ==> s[i] == s[1..][i - 1];
    }
  }

  lemma {:induction false} SplitGivesWords(s: string)
    ensures AllWords(Words(s))
    decreases |s|
  {
    if s == "" {
    } else if IsSpace(s[0]) {
      SplitGivesWords(s[1..]);
    } else {
      var k := WordLength(s);
      WordEnds(s);
      SplitGivesWords(s[k..]);
      assert IsWord(s[..k]);
    }
  }

  lemma {:induction false} WordLengthInFront(a: string, b: string)
    requires b != "" && IsSpace(b[0])
    ensures WordLength(a + b) == WordLength(a)
  {
    if a == "" {
      assert a + b == b;
    } else if !IsSpace(a[0]) {
      assert (a + b)[0] == a[0] && (a + b)[1..] == a[1..] + b;
      WordLengthInFront(a[1..], b);
    }
  }

  /** White space separates: what stands before and behind it is split on its own. */
  lemma {:induction false} WordsApart(a: string, b: string)
    requires b != "" && IsSpace(b[0])
    ensures Words(a + b) == Words(a) + Words(b)
    decreases |a|
  {
    var s := a + b;
    if a == "" {
      assert s == b;
    } else if IsSpace(a[0]) {
      assert s[0] == a[0] && s[1..] == a[1..] + b;
      WordsApart(a[1..], b);
    } else {
      var k := WordLength(a);
      WordLengthInFront(a, b);
      assert s[0] == a[0] && s[..k] == a[..k] && s[k..] == a[k..] + b;
      WordsApart(a[k..], b);
    }
  }

  lemma {:induction false} BlankHasNoWords(s: string)
    requires Blank(s)
    ensures Words(s) == []
  {
    if s != "" {
      BlankHasNoWords(s[1..]);
    }
  }

  lemma {:induction false} WordsOfStripLeft(s: string)
    ensures Words(StripLeft(s)) == Words(s)
  {
    if s != "" && IsSpace(s[0]) {
      WordsOfStripLeft(s[1..]);
    }
  }

  lemma {:induction false} WordsOfStripRight(s: string)
    ensures Words(StripRight(s)) == Words(s)
  {
    if s != "" && IsSpace(s[|s| - 1]) {
      var init, last := s[..|s| - 1], [s[|s| - 1]];
      assert s == init + last;
      WordsOfStripRight(init);
      WordsApart(init, last);
      BlankHasNoWords(last);
    }
  }

  lemma {:induction false} WordsOfStrip(s: string)
    ensures Words(Strip(s)) == Words(s)
  {
    WordsOfStripLeft(s);
    WordsOfStripRight(StripLeft(s));
  }

  lemma {:induction false} SpaceThenText(space: char, s: string)
    requires IsSpace(space)
    ensures Words([space] + s) == Words(s)
  {
    assert ([space] + s)[1..] == s;
  }

  function WordsIn(units: seq<string>): seq<string> {
    if units == [] then [] else Words(units[0]) + WordsIn(units[1..])
  }

  lemma {:induction false} NonBlankMore(unit: string, rest: seq<string>)
    ensures NonBlank([unit] + rest) == if Blank(unit) then NonBlank(rest) else [unit] + NonBlank(rest)
  {
    assert ([unit] + rest)[1..] == rest;
  }

  lemma {:induction false} WordsInMore(unit: string, rest: seq<string>)
    ensures WordsIn([unit] + rest) == Words(unit) + WordsIn(rest)
  {
    assert ([unit] + rest)[1..] == rest;
  }

  /** Blank sentences hold no words. */
  lemma {:induction false} WordsOfNonBlank(units: seq<string>)
    ensures WordsIn(NonBlank(units)) == WordsIn(units)
  {
    if units != [] {
      var first, rest := units[0], units[1..];
      assert units == [first] + rest;
      WordsOfNonBlank(rest);
      NonBlankMore(first, rest);
      WordsInMore(first, rest);
      if Blank(first) {
        BlankHasNoWords(first);
      } else {
        WordsInMore(first, NonBlank(rest));
      }
    }
  }

  // ---------------------------------------------------------------- the estimate

  /** round(q / 4.0): to the nearest integer, halves to the even one. */
  function RoundQuarters(q: nat): (r: nat)
    ensures -2 <= 4 * r - q <= 2 && (q % 4 == 2 ==> r % 2 == 0)
  {
    if q % 4 < 2 || (q % 4 == 2 && q / 4 % 2 == 0) then q / 4 else q / 4 + 1
  }

  function AtLeastOne(n: nat): nat {
    if n == 0 then 1 else n
  }

  /** Two characters of Arabic or four of any other script make a token, and a word is at least three quarters of one;
      all in quarters. */
  function Quarters(arabic: nat, other: nat, words: nat): nat {
    if 2 * arabic + other >= 3 * words then 2 * arabic + other else 3 * words
  }

  function FromQuarters(q: nat): nat {
    AtLeastOne(RoundQuarters(q))
  }

  /** The estimate of a text without superfluous white space. */
  function EstimateClean(s: string): nat {
    if s == "" then 0
    else
      var arabic := Count(IsArabic, s);
      FromQuarters(Quarters(arabic, |s| - arabic, Count(IsBlankChar, s) + 1))
  }

  function EstimateTokens(text: string): nat {
    EstimateClean(Normalise(text))
  }

  lemma {:induction false} RoundingIsMonotone(p: nat, q: nat)
    requires p <= q
    ensures FromQuarters(p) <= FromQuarters(q)
  {
    assert p / 4 < q / 4 || p / 4 == q / 4;
  }

  // ---------------------------------------------------------------- normalised text is its words

  lemma {:induction false} CountAppend(p: char -> bool, a: string, b: string)
    ensures Count(p, a + b) == Count(p, a) + Count(p, b)
  {
    if b == "" {
      assert a + b == a;
    } else {
      assert (a + b)[..|a + b| - 1] == a + b[..|b| - 1];
      CountAppend(p, a, b[..|b| - 1]);
    }
  }

  lemma {:induction false} CountNone(p: char -> bool, s: string)
    requires forall i :: 0 <= i < |s| ==> !p(s[i])
    ensures Count(p, s) == 0
  {
    if s != "" {
      CountNone(p, s[..|s| - 1]);
    }
  }

  lemma {:induction false} CollapseWord(w: string, rest: string)
    requires forall i :: 0 <= i < |w| ==> !IsSpace(w[i])
    ensures Collapse(w + rest) == w + Collapse(rest)
  {
    if w == "" {
      assert w + rest == rest;
    } else {
      var s := w + rest;
      assert s[0] == w[0] && s[1..] == w[1..] + rest;
      CollapseWord(w[1..], rest);
      assert [w[0]] + (w[1..] + Collapse(rest)) == w + Collapse(rest);
    }
  }

  /** c is j, possibly with a space behind it. */
  predicate SpaceBehind(c: string, j: string) {
    c == j || c == j + " "
  }

  /** What collapsing leaves of a text, seen from its words. */
  ghost predicate Shape(s: string) {
    var c, words := Collapse(s), Words(s);
    if s == "" then c == "" && words == []
    else if !IsSpace(s[0]) then words != [] && SpaceBehind(c, Join(" ", words))
    else c != "" && c[0] == ' ' && if words == [] then c == " " else SpaceBehind(c[1..], Join(" ", words))
  }

  lemma {:induction false} ShapeAfterSpace(s: string)
    requires s != "" && IsSpace(s[0]) && Shape(s[1..])
    ensures Shape(s)
  {
    if |s| > 1 && !IsSpace(s[1]) {
      assert (" " + Collapse(s[1..]))[1..] == Collapse(s[1..]);
    }
  }

  lemma {:induction false} ShapeAfterWord(w: string, rest: string, c: string, words: seq<string>)
    requires c != "" && c[0] == ' ' && if words == [] then c == " " else SpaceBehind(c[1..], Join(" ", words))
    ensures SpaceBehind(w + c, Join(" ", [w] + words))
  {
    JoinMore(" ", w, words);
    if words != [] {
      var j := Join(" ", words);
      assert c == " " + c[1..];
      if c[1..] == j {
        assert w + c == w + " " + j;
      } else {
        assert w + c == w + " " + j + " ";
      }
    }
  }

  /** Both functions deal with a leading word as a whole. */
  lemma {:induction false} LeadingWord(s: string) returns (w: string, rest: string)
    requires s != "" && !IsSpace(s[0])
    ensures s == w + rest && |rest| < |s| && (rest != "" ==> IsSpace(rest[0]))
    ensures Collapse(s) == w + Collapse(rest) && Words(s) == [w] + Words(rest)
  {
    var k := WordLength(s);
    w, rest := s[..k], s[k..];
    WordEnds(s);
    CollapseWord(w, rest);
    assert s == w + rest;
  }

  lemma {:induction false} NothingBehind(w: string)
    ensures SpaceBehind(w + "", Join(" ", [w] + []))
  {
    JoinMore(" ", w, []);
    assert w + "" == w;
  }

  lemma {:induction false} CollapsedShape(s: string)
    ensures Shape(s)
    decreases |s|
  {
    if s == "" {
    } else if IsSpace(s[0]) {
      CollapsedShape(s[1..]);
      ShapeAfterSpace(s);
    } else {
      var w, rest := LeadingWord(s);
      CollapsedShape(rest);
      if rest == "" {
        NothingBehind(w);
      } else {
        ShapeAfterWord(w, rest, Collapse(rest), Words(rest));
      }
    }
  }

  lemma {:induction false} JoinedEnds(words: seq<string>)
    requires words != [] && AllWords(words)
    ensures var j := Join(" ", words); j != "" && !IsSpace(j[0]) && !IsSpace(j[|j| - 1])
  {
    assert IsWord(words[0]);
    if |words| > 1 {
      JoinedEnds(words[1..]);
      var tail := Join(" ", words[1..]);
      var j := Join(" ", words);
      assert j == words[0] + " " + tail;
      assert j[0] == words[0][0] && j[|j| - 1] == tail[|tail| - 1];
    }
  }

  lemma {:induction false} StripBehind(j: string, c: string)
    requires j != "" && !IsSpace(j[0]) && !IsSpace(j[|j| - 1]) && SpaceBehind(c, j)
    ensures Strip(c) == j
  {
    assert c[0] == j[0];
    assert StripLeft(c) == c;
    assert c[..|j|] == j;
    assert StripRight(j) == j;
  }

  lemma {:induction false} StripBefore(j: string, c: string)
    requires j != "" && !IsSpace(j[0]) && !IsSpace(j[|j| - 1])
    requires c != "" && c[0] == ' ' && SpaceBehind(c[1..], j)
    ensures Strip(c) == j
  {
    StripBehind(j, c[1..]);
    assert StripLeft(c) == StripLeft(c[1..]);
  }

  /** re.sub and strip leave exactly the words of str.split, joined by single spaces. */
  lemma {:induction false} NormalisedIsWords(s: string)
    ensures Normalise(s) == Join(" ", Words(s))
  {
    CollapsedShape(s);
    SplitGivesWords(s);
    if Words(s) == [] {
      assert " "[1..] == "";
      assert StripLeft(" ") == "";
    } else {
      JoinedEnds(Words(s));
      if IsSpace(s[0]) {
        StripBefore(Join(" ", Words(s)), Collapse(s));
      } else {
        StripBehind(Join(" ", Words(s)), Collapse(s));
      }
    }
  }

  lemma {:induction false} CollapseBehind(w: string, tail: string)
    requires IsWord(w) && tail != "" && !IsSpace(tail[0]) && Collapse(tail) == tail
    ensures Collapse(w + " " + tail) == w + " " + tail
  {
    var spaced := " " + tail;
    assert spaced[1..] == tail && spaced[1] == tail[0];
    CollapseWord(w, spaced);
    assert w + spaced == w + " " + tail;
  }

  lemma {:induction false} CollapseOfJoin(words: seq<string>)
    requires AllWords(words)
    ensures Collapse(Join(" ", words)) == Join(" ", words)
  {
    if words != [] {
      var w, rest := words[0], words[1..];
      assert words == [w] + rest && IsWord(w);
      JoinMore(" ", w, rest);
      CollapseOfJoin(rest);
      if rest == [] {
        CollapseWord(w, "");
        assert w + "" == w;
      } else {
        JoinedEnds(rest);
        CollapseBehind(w, Join(" ", rest));
      }
    }
  }

  lemma {:induction false} NormalisedJoin(words: seq<string>)
    requires AllWords(words)
    ensures Normalise(Join(" ", words)) == Join(" ", words)
  {
    CollapseOfJoin(words);
    if words != [] {
      JoinedEnds(words);
      StripOfTrimmed(Join(" ", words));
    } else {
      assert Strip("") == "";
    }
  }

  // ---------------------------------------------------------------- the estimate of a list of words

  function CountAll(p: char -> bool, words: seq<string>): nat {
    if words == [] then 0 else Count(p, words[0]) + CountAll(p, words[1..])
  }

  function TotalLength(words: seq<string>): (n: nat) {
    if words == [] then 0 else |words[0]| + TotalLength(words[1..])
  }

  lemma {:induction false} CountAllAtMost(p: char -> bool, words: seq<string>)
    ensures CountAll(p, words) <= TotalLength(words)
  {
    if words != [] {
      CountAllAtMost(p, words[1..]);
    }
  }

  /** What joining words adds up to: their characters and a space between any two. */
  lemma {:induction false} JoinedCounts(p: char -> bool, words: seq<string>)
    requires words != []
    ensures |Join(" ", words)| == TotalLength(words) + |words| - 1
    ensures Count(p, Join(" ", words)) == CountAll(p, words) + if p(' ') then |words| - 1 else 0
  {
    if |words| > 1 {
      JoinedCounts(p, words[1..]);
      var tail := Join(" ", words[1..]);
      CountAppend(p, words[0] + " ", tail);
      CountAppend(p, words[0], " ");
      assert " "[..0] == "";
    }
  }

  lemma {:induction false} NoSpacesInWords(words: seq<string>)
    requires AllWords(words)
    ensures CountAll(IsBlankChar, words) == 0
  {
    if words != [] {
      assert IsWord(words[0]);
      CountNone(IsBlankChar, words[0]);
      NoSpacesInWords(words[1..]);
    }
  }

  function QuartersOf(words: seq<string>): nat
    requires words != []
  {
    CountAllAtMost(IsArabic, words);
    var arabic := CountAll(IsArabic, words);
    Quarters(arabic, TotalLength(words) - arabic + |words| - 1, |words|)
  }

  /** The estimate by words: Arabic characters, all other characters with the spaces between the words, and words. */
  function EstimateOf(words: seq<string>): nat {
    if words == [] then 0 else FromQuarters(QuartersOf(words))
  }

  lemma {:induction false} JoinedParts(words: seq<string>)
    requires AllWords(words) && words != []
    ensures var j := Join(" ", words);
      j != "" && Count(IsArabic, j) == CountAll(IsArabic, words) && Count(IsBlankChar, j) + 1 == |words| &&
      |j| == TotalLength(words) + |words| - 1
  {
    JoinedEnds(words);
    JoinedCounts(IsArabic, words);
    JoinedCounts(IsBlankChar, words);
    NoSpacesInWords(words);
  }

  lemma {:induction false} EstimateOfClean(words: seq<string>)
    requires AllWords(words)
    ensures EstimateClean(Join(" ", words)) == EstimateOf(words)
  {
    if words != [] {
      JoinedParts(words);
    }
  }

  lemma {:induction false} EstimateOfNormalised(text: string, words: seq<string>)
    requires AllWords(words)
    ensures Normalise(text) == Join(" ", words) ==> EstimateTokens(text) == EstimateOf(words)
  {
    EstimateOfClean(words);
  }

  /** The estimate of a text is the estimate of its words, and joining the words again does not change it. */
  lemma {:induction false} EstimateSeesWords(text: string)
    ensures EstimateTokens(text) == EstimateOf(Words(text)) == EstimateTokens(Join(" ", Words(text)))
  {
    SplitGivesWords(text);
    NormalisedIsWords(text);
    NormalisedJoin(Words(text));
    EstimateOfNormalised(text, Words(text));
    EstimateOfNormalised(Join(" ", Words(text)), Words(text));
  }

  lemma {:induction false} CountAllPrefix(p: char -> bool, words: seq<string>, i: nat, j: nat)
    requires i <= j <= |words|
    ensures CountAll(p, words[..i]) <= CountAll(p, words[..j])
    ensures TotalLength(words[..i]) - CountAll(p, words[..i]) <= TotalLength(words[..j]) - CountAll(p, words[..j])
  {
    if i > 0 {
      assert words[..i][1..] == words[1..][..i - 1] && words[..j][1..] == words[1..][..j - 1];
      CountAllPrefix(p, words[1..], i - 1, j - 1);
    } else {
      CountAllAtMost(p, words[..j]);
    }
  }

  lemma {:induction false} EstimateGrows(fewer: seq<string>, more: seq<string>)
    requires 0 < |fewer| <= |more| && CountAll(IsArabic, fewer) <= CountAll(IsArabic, more)
    requires TotalLength(fewer) - CountAll(IsArabic, fewer) <= TotalLength(more) - CountAll(IsArabic, more)
    ensures EstimateOf(fewer) <= EstimateOf(more)
  {
    assert QuartersOf(fewer) <= QuartersOf(more);
    RoundingIsMonotone(QuartersOf(fewer), QuartersOf(more));
  }

  /** More words never cost fewer tokens, in spite of the rounding. */
  lemma {:induction false} EstimateIsMonotone(words: seq<string>, i: nat, j: nat)
    requires i <= j <= |words|
    ensures EstimateOf(words[..i]) <= EstimateOf(words[..j])
  {
    if i > 0 {
      CountAllPrefix(IsArabic, words, i, j);
      EstimateGrows(words[..i], words[..j]);
    }
  }

  // ---------------------------------------------------------------- truncation

  /** k words fit the budget and k + 1 would not. */
  ghost predicate LongestFitting(words: seq<string>, budget: int, k: nat) {
    k <= |words| && EstimateTokens(Join(" ", words[..k])) <= budget &&
    forall j :: k < j <= |words| ==> EstimateTokens(Join(" ", words[..j])) > budget
  }

  lemma {:induction false} EstimateOfPrefix(words: seq<string>, k: nat)
    requires AllWords(words) && k <= |words|
    ensures EstimateTokens(Join(" ", words[..k])) == EstimateOf(words[..k])
  {
    NormalisedJoin(words[..k]);
    EstimateOfNormalised(Join(" ", words[..k]), words[..k]);
  }

  /** The binary search of the heuristic path. */
  method LongestPrefix(words: seq<string>, budget: nat) returns (low: nat)
    requires AllWords(words)
    ensures LongestFitting(words, budget, low)
  {
    var high := |words|;
    low := 0;
    EstimateOfPrefix(words, 0);
    while low < high
      invariant low <= high <= |words|
      invariant EstimateOf(words[..low]) <= budget
      invariant forall j :: high < j <= |words| ==> EstimateOf(words[..j]) > budget
    {
      var mid := (low + high + 1) / 2;
      EstimateOfPrefix(words, mid);
      if EstimateTokens(Join(" ", words[..mid])) <= budget {
        low := mid;
      } else {
        forall j | mid <= j <= |words| ensures EstimateOf(words[..j]) > budget {
          EstimateIsMonotone(words, mid, j);
        }
        high := mid - 1;
      }
    }
    forall j | low <= j <= |words| ensures EstimateTokens(Join(" ", words[..j])) == EstimateOf(words[..j]) {
      EstimateOfPrefix(words, j);
    }
  }

  /** r is the longest proper prefix of the words that fits. */
  ghost predicate IsCut(words: seq<string>, budget: int, k: nat, r: string) {
    k < |words| && LongestFitting(words, budget, k) && r == Join(" ", words[..k])
  }

  lemma {:induction false} ProperPrefix<T>(s: seq<T>, cost: seq<T> -> int, budget: int, k: nat)
    requires k <= |s| && cost(s[..k]) <= budget < cost(s)
    ensures k < |s|
  {
    assert s[..|s|] == s;
  }

  lemma {:induction false} CutWords(words: seq<string>, budget: int, k: nat, r: string)
    requires EstimateTokens(Join(" ", words)) > budget
    requires LongestFitting(words, budget, k) && r == Join(" ", words[..k])
    ensures IsCut(words, budget, k, r)
  {
    ProperPrefix(words, (ws: seq<string>) => EstimateTokens(Join(" ", ws)), budget, k);
  }

  /** Cuts text down to at most maxTokens tokens on a word boundary: unchanged when it fits, otherwise its longest word
      prefix that does. */
  method Truncate(text: string, maxTokens: int) returns (r: string)
    ensures maxTokens <= 0 ==> r == ""
    ensures maxTokens > 0 ==> EstimateTokens(r) <= maxTokens
    ensures maxTokens > 0 && EstimateTokens(text) <= maxTokens ==> r == text
    ensures maxTokens > 0 && EstimateTokens(text) > maxTokens ==>
      exists k: nat :: IsCut(Words(text), maxTokens, k, r)
  {
    if maxTokens <= 0 || text == "" {
      assert Normalise("") == "";
      return "";
    }
    if EstimateTokens(text) <= maxTokens {
      return text;
    }
    var words := Words(text);
    SplitGivesWords(text);
    EstimateSeesWords(text);
    var low := LongestPrefix(words, maxTokens);
    r := Join(" ", words[..low]);
    CutWords(words, maxTokens, low, r);
  }
}
