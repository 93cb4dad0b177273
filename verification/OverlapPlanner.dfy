/** Where the chunker cuts. The sentence loop and the word loop of the chunker follow one plan over the costs of their
    units: fill a piece up to the budget, then start the next one with a short tail of it if there is room. */
module OverlapPlanner {

  /** A piece of the plan: units lo..hi, of which lo..newFrom repeat the end of the piece before; or one unit that is
      larger than the whole budget and is split further. */
  datatype Span = Piece(lo: nat, newFrom: nat, hi: nat) | Oversize(at: nat)

  function Cost(costs: seq<nat>, lo: nat, hi: nat): nat
    requires lo <= hi <= |costs|
  {
    if lo == hi then 0 else Cost(costs, lo, hi - 1) + costs[hi - 1]
  }

  /** Walk back from hi while the accumulated tail stays within the overlap budget. */
  function TailScan(costs: seq<nat>, lo: nat, at: nat, total: nat, overlap: nat): (t: nat)
    requires lo <= at <= |costs|
    ensures lo <= t <= at
  {
    if at == lo || total + costs[at - 1] > overlap then at
    else TailScan(costs, lo, at - 1, total + costs[at - 1], overlap)
  }

  function TailStart(costs: seq<nat>, lo: nat, hi: nat, overlap: nat): (t: nat)
    requires lo <= hi <= |costs|
    ensures lo <= t <= hi
  {
    if overlap == 0 then hi else TailScan(costs, lo, hi, 0, overlap)
  }

  /** Where the piece after lo..hi starts, given that unit hi has to go into it. */
  function NextStart(costs: seq<nat>, lo: nat, hi: nat, budget: nat, overlap: nat): (t: nat)
    requires lo <= hi < |costs|
    ensures lo <= t <= hi
  {
    var t := TailStart(costs, lo, hi, overlap);
    if t < hi && Cost(costs, t, hi) + costs[hi] > budget then hi else t
  }

  function Close(lo: nat, newFrom: nat, hi: nat): seq<Span> {
    if lo < hi then [Piece(lo, newFrom, hi)] else []
  }

  /** The spans still to come when units lo..i are in the current piece and newFrom..i of them are new. */
  function PlanFrom(costs: seq<nat>, budget: nat, overlap: nat, lo: nat, newFrom: nat, i: nat): seq<Span>
    requires lo <= newFrom <= i <= |costs|
    decreases |costs| - i
  {
    if i == |costs| then Close(lo, newFrom, i)
    else if costs[i] > budget then
      Close(lo, newFrom, i) + [Oversize(i)] + PlanFrom(costs, budget, overlap, i + 1, i + 1, i + 1)
    else if lo < i && Cost(costs, lo, i) + costs[i] > budget then
      [Piece(lo, newFrom, i)] + PlanFrom(costs, budget, overlap, NextStart(costs, lo, i, budget, overlap), i, i + 1)
    else PlanFrom(costs, budget, overlap, lo, newFrom, i + 1)
  }

  function Plan(costs: seq<nat>, budget: nat, overlap: nat): seq<Span> {
    PlanFrom(costs, budget, overlap, 0, 0, 0)
  }

  // ---------------------------------------------------------------- what a plan promises

  function NewStart(s: Span): nat { if s.Piece? then s.newFrom else s.at }

  function End(s: Span): nat { if s.Piece? then s.hi else s.at + 1 }

  /** The new parts of the spans cover from..upto without gap or overlap, each with at least one unit. */
  ghost predicate Tiles(spans: seq<Span>, from: nat, upto: nat) {
    if spans == [] then from == upto
    else
      NewStart(spans[0]) == from && (spans[0].Piece? ==> spans[0].lo <= from < spans[0].hi) &&
      Tiles(spans[1..], End(spans[0]), upto)
  }

  /** One span on its own: a piece fits the budget and was closed only because the next unit did not fit. */
  ghost predicate SpanOk(costs: seq<nat>, budget: nat, s: Span) {
    match s
    case Oversize(at) => at < |costs| && costs[at] > budget
    case Piece(lo, newFrom, hi) =>
      lo <= newFrom < hi <= |costs| && Cost(costs, lo, hi) <= budget &&
      (hi < |costs| ==> costs[hi] > budget || Cost(costs, lo, hi) + costs[hi] > budget)
  }

  /** From t on is the longest part of a piece, counted from its end, that the overlap budget allows. */
  ghost predicate LongestTail(costs: seq<nat>, lo: nat, hi: nat, overlap: nat, t: nat) {
    lo <= t <= hi <= |costs| && Cost(costs, t, hi) <= overlap && (overlap == 0 ==> t == hi) &&
    (overlap > 0 && t > lo ==> Cost(costs, t - 1, hi) > overlap)
  }

  /** The piece behind lo..hi repeats that tail if the next unit fits behind it, and nothing otherwise. */
  ghost predicate RepeatsTail(costs: seq<nat>, budget: nat, overlap: nat, lo: nat, hi: nat, start: nat) {
    hi < |costs| && exists t: nat ::
      LongestTail(costs, lo, hi, overlap, t) && start == if Cost(costs, t, hi) + costs[hi] <= budget then t else hi
  }

  /** Two neighbours: a repeated start is the longest tail of the piece before that the overlap budget allows, if the
      next unit fits behind it; it never repeats that whole piece, and nothing is repeated after an oversized unit. */
  ghost predicate LinkOk(costs: seq<nat>, budget: nat, overlap: nat, p: Span, s: Span)
  {
    SpanOk(costs, budget, p) && SpanOk(costs, budget, s) &&
    (s.Piece? ==>
      if p.Piece? then
        p.hi == s.newFrom && p.lo < s.lo && Cost(costs, s.lo, s.newFrom) <= overlap &&
        RepeatsTail(costs, budget, overlap, p.lo, p.hi, s.lo)
      else s.lo == s.newFrom)
  }

  ghost predicate WellPlanned(costs: seq<nat>, budget: nat, overlap: nat, spans: seq<Span>) {
    spans == [] ||
    (SpanOk(costs, budget, spans[0]) && WellPlanned(costs, budget, overlap, spans[1..]) &&
     (|spans| > 1 ==> LinkOk(costs, budget, overlap, spans[0], spans[1])))
  }

  lemma {:induction false} CostSplit(costs: seq<nat>, lo: nat, mid: nat, hi: nat)
    requires lo <= mid <= hi <= |costs|
    ensures Cost(costs, lo, hi) == Cost(costs, lo, mid) + Cost(costs, mid, hi)
  {
    if mid < hi {
      CostSplit(costs, lo, mid, hi - 1);
    }
  }

  /** The walk back from the end has come to i, past this total. */
  ghost predicate TailAt(costs: seq<nat>, i: nat, total: nat, overlap: nat) {
    i <= |costs| && total == Cost(costs, i, |costs|) &&
    TailScan(costs, 0, i, total, overlap) == TailStart(costs, 0, |costs|, overlap)
  }

  lemma {:induction false} TailGrows(costs: seq<nat>, i: nat, total: nat, overlap: nat)
    requires 0 < i && TailAt(costs, i, total, overlap) && total + costs[i - 1] <= overlap
    ensures TailAt(costs, i - 1, total + costs[i - 1], overlap)
  {
    CostSplit(costs, i - 1, i, |costs|);
    assert Cost(costs, i - 1, i) == Cost(costs, i - 1, i - 1) + costs[i - 1];
  }

  lemma {:induction false} TailEnds(costs: seq<nat>, i: nat, total: nat, overlap: nat)
    requires TailAt(costs, i, total, overlap) && (i == 0 || total + costs[i - 1] > overlap)
    ensures i == TailStart(costs, 0, |costs|, overlap) && total == Cost(costs, i, |costs|)
  {
  }

  /** The tail is the longest suffix within the overlap budget. */
  lemma {:induction false} TailScanLongest(costs: seq<nat>, lo: nat, at: nat, hi: nat, overlap: nat)
    requires lo <= at <= hi <= |costs| && Cost(costs, at, hi) <= overlap
    ensures var t := TailScan(costs, lo, at, Cost(costs, at, hi), overlap);
      Cost(costs, t, hi) <= overlap && (t > lo ==> Cost(costs, t - 1, hi) > overlap)
    decreases at
  {
    if at > lo {
      CostSplit(costs, at - 1, at, hi);
      if Cost(costs, at, hi) + costs[at - 1] <= overlap {
        TailScanLongest(costs, lo, at - 1, hi, overlap);
      }
    }
  }

  lemma {:induction false} TailLongest(costs: seq<nat>, lo: nat, hi: nat, overlap: nat)
    requires lo <= hi <= |costs|
    ensures LongestTail(costs, lo, hi, overlap, TailStart(costs, lo, hi, overlap))
  {
    if overlap > 0 {
      TailScanLongest(costs, lo, hi, hi, overlap);
    }
  }

  /** After a full piece the next start lies strictly beyond its start, within the overlap budget, with room for the
      next unit. */
  lemma {:induction false} NextStartProgress(costs: seq<nat>, lo: nat, hi: nat, budget: nat, overlap: nat)
    requires lo < hi < |costs| && costs[hi] <= budget && Cost(costs, lo, hi) + costs[hi] > budget
    ensures var t := NextStart(costs, lo, hi, budget, overlap);
      lo < t && Cost(costs, t, hi) <= overlap && Cost(costs, t, hi) + costs[hi] <= budget &&
      RepeatsTail(costs, budget, overlap, lo, hi, t)
  {
    TailLongest(costs, lo, hi, overlap);
    assert LongestTail(costs, lo, hi, overlap, TailStart(costs, lo, hi, overlap));
  }

  ghost predicate PieceOpen(costs: seq<nat>, budget: nat, lo: nat, newFrom: nat, i: nat) {
    lo <= newFrom <= i <= |costs| && Cost(costs, lo, i) <= budget && (newFrom < i || lo == i)
  }

  ghost predicate StartsAt(spans: seq<Span>, lo: nat, newFrom: nat) {
    spans != [] && spans[0].Piece? ==> spans[0].lo == lo && spans[0].newFrom == newFrom
  }

  ghost predicate Sound(costs: seq<nat>, budget: nat, overlap: nat, lo: nat, newFrom: nat, spans: seq<Span>) {
    Tiles(spans, newFrom, |costs|) && WellPlanned(costs, budget, overlap, spans) && StartsAt(spans, lo, newFrom)
  }

  lemma {:induction false} Prepend(costs: seq<nat>, budget: nat, overlap: nat, s: Span, rest: seq<Span>, lo: nat)
    requires SpanOk(costs, budget, s) && Sound(costs, budget, overlap, lo, End(s), rest)
    requires rest != [] ==> LinkOk(costs, budget, overlap, s, rest[0])
    ensures Tiles([s] + rest, NewStart(s), |costs|) && WellPlanned(costs, budget, overlap, [s] + rest)
  {
    assert ([s] + rest)[1..] == rest;
  }

  lemma {:induction false} LastPieceSound(costs: seq<nat>, budget: nat, overlap: nat, lo: nat, newFrom: nat)
    requires PieceOpen(costs, budget, lo, newFrom, |costs|)
    ensures Sound(costs, budget, overlap, lo, newFrom, Close(lo, newFrom, |costs|))
  {
    if lo < |costs| {
      var last := Piece(lo, newFrom, |costs|);
      Prepend(costs, budget, overlap, last, [], |costs|);
      assert [last] + [] == [last];
    }
  }

  lemma {:induction false} OversizeSound(
      costs: seq<nat>, budget: nat, overlap: nat, lo: nat, newFrom: nat, i: nat, rest: seq<Span>)
    requires PieceOpen(costs, budget, lo, newFrom, i) && i < |costs| && costs[i] > budget
    requires Sound(costs, budget, overlap, i + 1, i + 1, rest)
    ensures Sound(costs, budget, overlap, lo, newFrom, Close(lo, newFrom, i) + [Oversize(i)] + rest)
  {
    if rest != [] { assert SpanOk(costs, budget, rest[0]); }
    Prepend(costs, budget, overlap, Oversize(i), rest, i + 1);
    var behind := [Oversize(i)] + rest;
    if lo < i {
      Prepend(costs, budget, overlap, Piece(lo, newFrom, i), behind, i);
      assert [Piece(lo, newFrom, i)] + [Oversize(i)] + rest == [Piece(lo, newFrom, i)] + behind;
    } else {
      assert [] + [Oversize(i)] + rest == behind;
    }
  }

  lemma {:induction false} FlushSound(
      costs: seq<nat>, budget: nat, overlap: nat, lo: nat, newFrom: nat, i: nat, rest: seq<Span>)
    requires PieceOpen(costs, budget, lo, newFrom, i) && i < |costs| && costs[i] <= budget
    requires lo < i && Cost(costs, lo, i) + costs[i] > budget
    requires Sound(costs, budget, overlap, NextStart(costs, lo, i, budget, overlap), i, rest)
    ensures Sound(costs, budget, overlap, lo, newFrom, [Piece(lo, newFrom, i)] + rest)
  {
    NextStartProgress(costs, lo, i, budget, overlap);
    if rest != [] { assert SpanOk(costs, budget, rest[0]); }
    Prepend(costs, budget, overlap, Piece(lo, newFrom, i), rest, NextStart(costs, lo, i, budget, overlap));
  }

  /** Every plan covers all units in order, keeps to the budget, closes a piece only when it has to, and repeats exactly
      the tails it promises. */
  lemma {:induction false} PlanSound(costs: seq<nat>, budget: nat, overlap: nat, lo: nat, newFrom: nat, i: nat)
    requires PieceOpen(costs, budget, lo, newFrom, i)
    ensures Sound(costs, budget, overlap, lo, newFrom, PlanFrom(costs, budget, overlap, lo, newFrom, i))
    decreases |costs| - i
  {
    if i == |costs| {
      LastPieceSound(costs, budget, overlap, lo, newFrom);
    } else if costs[i] > budget {
      PlanSound(costs, budget, overlap, i + 1, i + 1, i + 1);
      OversizeSound(costs, budget, overlap, lo, newFrom, i,
                    PlanFrom(costs, budget, overlap, i + 1, i + 1, i + 1));
    } else if lo < i && Cost(costs, lo, i) + costs[i] > budget {
      var t := NextStart(costs, lo, i, budget, overlap);
      NextStartProgress(costs, lo, i, budget, overlap);
      PlanSound(costs, budget, overlap, t, i, i + 1);
      FlushSound(costs, budget, overlap, lo, newFrom, i, PlanFrom(costs, budget, overlap, t, i, i + 1));
    } else {
      PlanSound(costs, budget, overlap, lo, newFrom, i + 1);
    }
  }

  // ---------------------------------------------------------------- reconstruction

  ghost predicate FitsIn(s: Span, n: nat) {
    if s.Piece? then s.lo <= s.newFrom <= s.hi <= n else s.at < n
  }

  ghost predicate Fit(spans: seq<Span>, n: nat) {
    forall s :: s in spans ==> FitsIn(s, n)
  }

  /** The units a span carries, repeated ones included; nothing for a span that does not fit the list. */
  function Carried<T>(items: seq<T>, s: Span): seq<T> {
    match s
    case Piece(lo, _, hi) => if lo <= hi <= |items| then items[lo..hi] else []
    case Oversize(at) => if at < |items| then [items[at]] else []
  }

  function Repeated(s: Span): nat {
    if s.Piece? && s.lo <= s.newFrom then s.newFrom - s.lo else 0
  }

  /** What the spans carry, with the repeated units deleted, one after the other. */
  ghost function WithoutRepeats<T>(items: seq<T>, spans: seq<Span>): seq<T>
    requires Fit(spans, |items|)
  {
    if spans == [] then []
    else
      assert FitsIn(spans[0], |items|);
      assert Fit(spans[1..], |items|) by { forall s | s in spans[1..] ensures s in spans {} }
      Carried(items, spans[0])[Repeated(spans[0])..] + WithoutRepeats(items, spans[1..])
  }

  lemma {:induction false} TilesFit(spans: seq<Span>, from: nat, n: nat)
    requires Tiles(spans, from, n)
    ensures from <= n && Fit(spans, n)
  {
    if spans != [] {
      TilesFit(spans[1..], End(spans[0]), n);
      forall s | s in spans ensures s == spans[0] || s in spans[1..] {}
    }
  }

  lemma {:induction false} NewPart<T>(items: seq<T>, s: Span, from: nat)
    requires FitsIn(s, |items|) && NewStart(s) == from && (s.Piece? ==> s.lo <= from < s.hi)
    ensures from < End(s) <= |items| && Carried(items, s)[Repeated(s)..] == items[from..End(s)]
  {
    if s.Piece? {
      assert items[s.lo..s.hi][Repeated(s)..] == items[from..s.hi];
    }
  }

  lemma {:induction false} SplitAfter<T>(items: seq<T>, from: nat, mid: nat)
    requires from <= mid <= |items|
    ensures items[from..mid] + items[mid..] == items[from..]
  {
  }

  /** Deleting the repeated units and joining what is left gives back all units, in order. */
  lemma {:induction false} Reconstruction<T>(items: seq<T>, spans: seq<Span>, from: nat)
    requires Tiles(spans, from, |items|) && Fit(spans, |items|) && from <= |items|
    ensures WithoutRepeats(items, spans) == items[from..]
  {
    if spans != [] {
      var s := spans[0];
      TilesFit(spans[1..], End(s), |items|);
      Reconstruction(items, spans[1..], End(s));
      assert FitsIn(s, |items|);
      NewPart(items, s, from);
      SplitAfter(items, from, End(s));
    }
  }

  // ---------------------------------------------------------------- rendering a plan while it unfolds

  /** What f makes of each item, one after the other. */
  function Render<T, X>(f: T -> seq<X>, items: seq<T>): seq<X> {
    if items == [] then [] else f(items[0]) + Render(f, items[1..])
  }

  lemma {:induction false} RenderAppend<T, X>(f: T -> seq<X>, a: seq<T>, b: seq<T>)
    ensures Render(f, a + b) == Render(f, a) + Render(f, b)
  {
    if a == [] {
      assert a + b == b;
    } else {
      assert (a + b)[0] == a[0] && (a + b)[1..] == a[1..] + b;
      RenderAppend(f, a[1..], b);
    }
  }

  lemma {:induction false} RenderOne<T, X>(f: T -> seq<X>, item: T)
    ensures Render(f, [item]) == f(item)
  {
  }

  lemma {:induction false} RenderBehind<T, X>(f: T -> seq<X>, before: seq<T>, item: T, after: seq<T>)
    ensures Render(f, before + [item] + after) == Render(f, before) + f(item) + Render(f, after)
  {
    RenderAppend(f, before + [item], after);
    RenderAppend(f, before, [item]);
    RenderOne(f, item);
  }

  lemma {:induction false} RenderClose<X>(f: Span -> seq<X>, lo: nat, newFrom: nat, hi: nat)
    ensures Render(f, Close(lo, newFrom, hi)) == if lo < hi then f(Piece(lo, newFrom, hi)) else []
  {
    RenderOne(f, Piece(lo, newFrom, hi));
  }

  lemma {:induction false} Regroup<X>(a: seq<X>, b: seq<X>, c: seq<X>, d: seq<X>)
    ensures a + (b + c + d) == (a + b + c) + d
  {
  }

  lemma {:induction false} PlanSkip(
      costs: seq<nat>, budget: nat, overlap: nat, lo: nat, newFrom: nat, i: nat)
    requires lo <= newFrom <= i < |costs| && costs[i] <= budget
    requires lo < i ==> Cost(costs, lo, i) + costs[i] <= budget
    ensures PlanFrom(costs, budget, overlap, lo, newFrom, i) == PlanFrom(costs, budget, overlap, lo, newFrom, i + 1)
  {
  }

  /** Unit i does not fit the budget at all. */
  lemma {:induction false} RenderOversize<X>(
      f: Span -> seq<X>, costs: seq<nat>, budget: nat, overlap: nat, lo: nat, newFrom: nat, i: nat, done: seq<X>)
    requires lo <= newFrom <= i < |costs| && costs[i] > budget
    ensures done + Render(f, PlanFrom(costs, budget, overlap, lo, newFrom, i))
         == (done + (if lo < i then f(Piece(lo, newFrom, i)) else []) + f(Oversize(i)))
            + Render(f, PlanFrom(costs, budget, overlap, i + 1, i + 1, i + 1))
  {
    var rest := PlanFrom(costs, budget, overlap, i + 1, i + 1, i + 1);
    RenderBehind(f, Close(lo, newFrom, i), Oversize(i), rest);
    RenderClose(f, lo, newFrom, i);
    Regroup(done, Render(f, Close(lo, newFrom, i)), f(Oversize(i)), Render(f, rest));
  }

  /** Unit i does not fit into the current piece any more. */
  lemma {:induction false} RenderFlush<X>(
      f: Span -> seq<X>, costs: seq<nat>, budget: nat, overlap: nat, lo: nat, newFrom: nat, i: nat, done: seq<X>)
    requires lo <= newFrom <= i < |costs| && costs[i] <= budget && lo < i && Cost(costs, lo, i) + costs[i] > budget
    ensures done + Render(f, PlanFrom(costs, budget, overlap, lo, newFrom, i))
         == (done + f(Piece(lo, newFrom, i)))
            + Render(f, PlanFrom(costs, budget, overlap, NextStart(costs, lo, i, budget, overlap), i, i + 1))
  {
    var rest := PlanFrom(costs, budget, overlap, NextStart(costs, lo, i, budget, overlap), i, i + 1);
    RenderAppend(f, [Piece(lo, newFrom, i)], rest);
    RenderOne(f, Piece(lo, newFrom, i));
  }
}
