/** Reciprocal Rank Fusion: several ranked id lists become one scored list. */
module RankFusion {
  import opened Outcomes
  import opened Sorting

  // ---------------------------------------------------------------- ranks and scores

  /** acc followed by the elements of s it does not hold yet, each once, in the order they appear. */
  function Extend<K(==, !new)>(acc: seq<K>, s: seq<K>): (r: seq<K>)
    ensures acc <= r
    ensures forall x :: x in r <==> x in acc || x in s
  {
    if s == [] then acc
    else
      var init, last := Extend(acc, s[..|s| - 1]), s[|s| - 1];
      assert s == s[..|s| - 1] + [last];
      if last in init then init else init + [last]
  }

  /** The ranking without repetitions: only the first occurrence of an id counts. */
  function Dedup<K(==, !new)>(s: seq<K>): seq<K> {
    Extend([], s)
  }

  /** Where x stands in s, counted from 1; 0 when it does not. */
  function RankIn<K(==, !new)>(s: seq<K>, x: K): (rank: nat)
    ensures rank == 0 <==> x !in s
    ensures rank > 0 ==> rank <= |s| && s[rank - 1] == x
    ensures forall i :: 0 <= i < rank - 1 ==> s[i] != x
  {
    if s == [] then 0
    else if s[0] == x then 1
    else
      var rest := RankIn(s[1..], x);
      if rest == 0 then 0 else rest + 1
  }

  function Rank<K(==, !new)>(ranking: seq<K>, x: K): nat {
    RankIn(Dedup(ranking), x)
  }

  /** What a ranking adds to the score of an id at this rank; nothing when it does not hold it. */
  function Gain(weight: real, damping: nat, rank: nat): real
    requires damping >= 1
  {
    if rank == 0 then 0.0 else weight / (damping + rank) as real
  }

  /** The sum of weight / (k + rank) over the rankings that hold x. */
  function Score<K(==, !new)>(rankings: seq<seq<K>>, weights: seq<real>, damping: nat, x: K): real
    requires |weights| == |rankings| && damping >= 1
  {
    if rankings == [] then 0.0
    else
      var n := |rankings| - 1;
      Score(rankings[..n], weights[..n], damping, x) + Gain(weights[n], damping, Rank(rankings[n], x))
  }

  /** The better of two ranks, where 0 is no rank. */
  function Better(before: nat, here: nat): nat {
    if before == 0 then here else if here == 0 || before <= here then before else here
  }

  /** The best rank of x in any ranking; 0 when no ranking holds it. */
  function BestRank<K(==, !new)>(rankings: seq<seq<K>>, x: K): nat {
    if rankings == [] then 0
    else
      Better(BestRank(rankings[..|rankings| - 1], x), Rank(rankings[|rankings| - 1], x))
  }

  /** All ids in the order of their first appearance. */
  function FirstSeen<K(==, !new)>(rankings: seq<seq<K>>): seq<K> {
    if rankings == [] then [] else Extend(FirstSeen(rankings[..|rankings| - 1]), rankings[|rankings| - 1])
  }

  /** A strictly precedes b in the fused list: higher score, then better best rank, then earlier first appearance. */
  predicate Outranks<K(==, !new)>(rankings: seq<seq<K>>, weights: seq<real>, damping: nat, a: K, b: K)
    requires |weights| == |rankings| && damping >= 1
  {
    var sa, sb := Score(rankings, weights, damping, a), Score(rankings, weights, damping, b);
    var ra, rb := BestRank(rankings, a), BestRank(rankings, b);
    sa > sb || (sa == sb && (ra < rb || (ra == rb && RankIn(FirstSeen(rankings), a) < RankIn(FirstSeen(rankings), b))))
  }

  function KeysOf<K>(fused: seq<(K, real)>): (keys: seq<K>)
    ensures |keys| == |fused| && forall i :: 0 <= i < |keys| ==> keys[i] == fused[i].0
  {
    seq(|fused|, i requires 0 <= i < |fused| => fused[i].0)
  }

  /** What the fused list has to be: every id of any ranking once, with its score, in the order of Outranks. */
  ghost predicate IsFusion<K(!new)>(rankings: seq<seq<K>>, weights: seq<real>, damping: nat, fused: seq<(K, real)>)
    requires |weights| == |rankings| && damping >= 1
  {
    (forall x :: x in KeysOf(fused) <==> exists r :: r in rankings && x in r) &&
    (forall i :: 0 <= i < |fused| ==> fused[i].1 == Score(rankings, weights, damping, fused[i].0)) &&
    (forall i, j :: 0 <= i < j < |fused| ==> Outranks(rankings, weights, damping, fused[i].0, fused[j].0))
  }

  // ---------------------------------------------------------------- facts about de-duplication

  lemma {:induction false} ExtendDistinct<K(!new)>(acc: seq<K>, s: seq<K>)
    requires Distinct(acc)
    ensures Distinct(Extend(acc, s))
  {
    if s != [] {
      ExtendDistinct(acc, s[..|s| - 1]);
    }
  }

  lemma {:induction false} ExtendOneMore<K(!new)>(acc: seq<K>, s: seq<K>, x: K)
    ensures Extend(acc, s + [x]) == (var e := Extend(acc, s); if x in e then e else e + [x])
  {
    assert (s + [x])[..|s|] == s;
  }

  lemma {:induction false} RankInPrefix<K(!new)>(s: seq<K>, t: seq<K>, x: K)
    requires s <= t && x in s
    ensures RankIn(t, x) == RankIn(s, x)
  {
    var r := RankIn(s, x);
    assert t[r - 1] == x;
    assert forall i :: 0 <= i < r - 1 ==> t[i] == s[i];
  }

  lemma {:induction false} RankAtEnd<K(!new)>(s: seq<K>, x: K)
    requires x !in s
    ensures RankIn(s + [x], x) == |s| + 1
  {
    var t := s + [x];
    assert t[|s|] == x && x in t;
    assert forall i :: 0 <= i < |s| ==> t[i] == s[i];
  }

  lemma {:induction false} RankDetermines<K(!new)>(s: seq<K>, x: K, y: K)
    requires x in s && RankIn(s, x) == RankIn(s, y)
    ensures x == y
  {
    assert s[RankIn(s, x) - 1] == x;
  }

  /** first_seen numbers the ids of all rankings: each gets one position, and no two get the same. */
  lemma {:induction false} FirstSeenNumbers<K(!new)>(rankings: seq<seq<K>>)
    ensures Distinct(FirstSeen(rankings))
    ensures forall x :: x in FirstSeen(rankings) <==> exists r :: r in rankings && x in r
  {
    if rankings != [] {
      var n := |rankings| - 1;
      var init, last := rankings[..n], rankings[n];
      FirstSeenNumbers(init);
      ExtendDistinct(FirstSeen(init), last);
      assert rankings == init + [last];
      forall x ensures x in FirstSeen(rankings) <==> exists r :: r in rankings && x in r {
        if x in FirstSeen(init) {
          var r :| r in init && x in r;
          assert r in rankings;
        } else if x in last {
          assert last in rankings;
        }
      }
    }
  }

  /** The best rank is attained in a ranking and beaten in none. */
  lemma {:induction false} BestRankIsLeast<K(!new)>(rankings: seq<seq<K>>, x: K)
    ensures forall r :: r in rankings && x in r ==> 0 < BestRank(rankings, x) <= Rank(r, x)
    ensures BestRank(rankings, x) > 0 ==> exists r :: r in rankings && x in r && Rank(r, x) == BestRank(rankings, x)
  {
    if rankings != [] {
      var n := |rankings| - 1;
      var init, last := rankings[..n], rankings[n];
      assert rankings == init + [last];
      BestRankIsLeast(init, x);
      assert Rank(last, x) > 0 <==> x in last;
      if BestRank(rankings, x) > 0 {
        if BestRank(rankings, x) == BestRank(init, x) {
          var r :| r in init && x in r && Rank(r, x) == BestRank(init, x);
          assert r in rankings;
        } else {
          assert last in rankings;
        }
      }
    }
  }

  lemma {:induction false} UnseenIsBlank<K(!new)>(rankings: seq<seq<K>>, weights: seq<real>, damping: nat, x: K)
    requires |weights| == |rankings| && damping >= 1
    ensures x !in FirstSeen(rankings) ==> Score(rankings, weights, damping, x) == 0.0 && BestRank(rankings, x) == 0
    ensures x in FirstSeen(rankings) ==> BestRank(rankings, x) > 0
  {
    if rankings != [] {
      var n := |rankings| - 1;
      UnseenIsBlank(rankings[..n], weights[..n], damping, x);
    }
  }

  lemma {:induction false} UnseenAreBlank<K(!new)>(rankings: seq<seq<K>>, weights: seq<real>, damping: nat)
    requires |weights| == |rankings| && damping >= 1
    ensures forall x :: x !in FirstSeen(rankings) ==>
      Score(rankings, weights, damping, x) == 0.0 && BestRank(rankings, x) == 0
    ensures forall x :: x in FirstSeen(rankings) ==> BestRank(rankings, x) > 0
  {
    forall x
      ensures x !in FirstSeen(rankings) ==> Score(rankings, weights, damping, x) == 0.0 && BestRank(rankings, x) == 0
      ensures x in FirstSeen(rankings) ==> BestRank(rankings, x) > 0
    {
      UnseenIsBlank(rankings, weights, damping, x);
    }
  }

  // ---------------------------------------------------------------- the loop

  /** What is known of the ids after the finished rankings: their scores, best ranks and order. */
  datatype Tally<!K> = Tally(score: K -> real, best: K -> nat, seen: seq<K>)

  ghost predicate Sensible<K(!new)>(t: Tally<K>) {
    Distinct(t.seen) &&
    (forall x :: x !in t.seen ==> t.score(x) == 0.0 && t.best(x) == 0) &&
    forall x :: x in t.seen ==> t.best(x) > 0
  }

  ghost function TallyOf<K(!new)>(rankings: seq<seq<K>>, weights: seq<real>, damping: nat): (t: Tally<K>)
    requires |weights| == |rankings| && damping >= 1
    ensures Sensible(t)
  {
    FirstSeenNumbers(rankings);
    UnseenAreBlank(rankings, weights, damping);
    Tally((x: K) => Score(rankings, weights, damping, x), (x: K) => BestRank(rankings, x), FirstSeen(rankings))
  }

  /** The three dictionaries of the loop, and their keys in the order in which they were inserted. */
  datatype Books<!K> = Books(keys: seq<K>, scores: map<K, real>, bestRank: map<K, nat>, firstSeen: map<K, nat>)

  ghost predicate ScoresKept<K(!new)>(scores: map<K, real>, t: Tally<K>, damping: nat, seen: seq<K>, rank: K -> nat,
                                      w: real)
    requires damping >= 1
  {
    (forall x :: x in scores <==> x in seen) &&
    forall x :: x in scores ==> scores[x] == t.score(x) + Gain(w, damping, rank(x))
  }

  ghost predicate BestKept<K(!new)>(best: map<K, nat>, t: Tally<K>, seen: seq<K>, rank: K -> nat) {
    (forall x :: x in best <==> x in seen) && forall x :: x in best ==> best[x] == Better(t.best(x), rank(x))
  }

  ghost predicate FirstKept<K(!new)>(first: map<K, nat>, seen: seq<K>) {
    (forall x :: x in first <==> x in seen) && forall x :: x in first ==> first[x] < |seen| && seen[first[x]] == x
  }

  /** They hold what the finished rankings and the current one so far say, where seen are the ids so far and rank
      their ranks in the current ranking. */
  ghost predicate Kept<K(!new)>(b: Books<K>, t: Tally<K>, damping: nat, seen: seq<K>, rank: K -> nat, w: real)
    requires damping >= 1
  {
    b.keys == seen && ScoresKept(b.scores, t, damping, seen, rank, w) && BestKept(b.bestRank, t, seen, rank) &&
    FirstKept(b.firstSeen, seen)
  }

  function Joined<K(==)>(seen: seq<K>, x: K): (r: seq<K>)
    ensures x in r
  {
    if x in seen then seen else
      assert (seen + [x])[|seen|] == x;
      seen + [x]
  }

  /** The body of the inner loop for an id that is new in its ranking. */
  function Enter<K(==, !new)>(b: Books<K>, x: K, w: real, damping: nat, rank: nat, order: nat): Books<K>
    requires damping >= 1
  {
    Books(
      if x in b.scores then b.keys else b.keys + [x],
      b.scores[x := (if x in b.scores then b.scores[x] else 0.0) + w / (damping + rank) as real],
      if x !in b.bestRank || rank < b.bestRank[x] then b.bestRank[x := rank] else b.bestRank,
      if x !in b.firstSeen then b.firstSeen[x := order] else b.firstSeen)
  }

  lemma {:induction false} EnterScores<K(!new)>(scores: map<K, real>, t: Tally<K>, damping: nat, seen: seq<K>,
                                                rank: K -> nat, w: real, x: K, here: nat, rank': K -> nat)
    requires damping >= 1 && here > 0 && rank(x) == 0 && rank'(x) == here
    requires forall y :: y != x ==> rank'(y) == rank(y)
    requires x !in seen ==> t.score(x) == 0.0
    requires ScoresKept(scores, t, damping, seen, rank, w)
    ensures ScoresKept(scores[x := (if x in scores then scores[x] else 0.0) + w / (damping + here) as real], t, damping,
                       Joined(seen, x), rank', w)
  {
    assert Gain(w, damping, 0) == 0.0 && Gain(w, damping, here) == w / (damping + here) as real;
  }

  lemma {:induction false} EnterBest<K(!new)>(best: map<K, nat>, t: Tally<K>, seen: seq<K>, rank: K -> nat, x: K,
                                              here: nat, rank': K -> nat)
    requires here > 0 && rank(x) == 0 && rank'(x) == here && forall y :: y != x ==> rank'(y) == rank(y)
    requires if x in seen then t.best(x) > 0 else t.best(x) == 0
    requires BestKept(best, t, seen, rank)
    ensures BestKept(if x !in best || here < best[x] then best[x := here] else best, t, Joined(seen, x), rank')
  {
  }

  lemma {:induction false} EnterFirst<K(!new)>(first: map<K, nat>, seen: seq<K>, x: K)
    requires FirstKept(first, seen)
    ensures FirstKept(if x !in first then first[x := |seen|] else first, Joined(seen, x))
  {
  }

  lemma {:induction false} EnterKeeps<K(!new)>(b: Books<K>, t: Tally<K>, damping: nat, seen: seq<K>, rank: K -> nat,
                                               w: real, x: K, here: nat, rank': K -> nat)
    requires damping >= 1 && Sensible(t) && Kept(b, t, damping, seen, rank, w) && (x in seen <==> x in t.seen)
    requires rank(x) == 0 && rank'(x) == here > 0 && forall y :: y != x ==> rank'(y) == rank(y)
    ensures Kept(Enter(b, x, w, damping, here, |seen|), t, damping, Joined(seen, x), rank', w)
  {
    EnterScores(b.scores, t, damping, seen, rank, w, x, here, rank');
    EnterBest(b.bestRank, t, seen, rank, x, here, rank');
    EnterFirst(b.firstSeen, seen, x);
  }

  lemma {:induction false} OneMoreEntry<K(!new)>(prefix: seq<K>, x: K, y: K)
    ensures Rank(prefix + [x], y) == if y == x && x !in prefix then |Dedup(prefix)| + 1 else Rank(prefix, y)
  {
    ExtendOneMore([], prefix, x);
    if x !in prefix {
      if y == x {
        RankAtEnd(Dedup(prefix), x);
      } else if y in prefix {
        RankInPrefix(Dedup(prefix), Dedup(prefix) + [x], y);
      }
    }
  }

  ghost function Ranks<K(!new)>(prefix: seq<K>): K -> nat {
    (x: K) => Rank(prefix, x)
  }

  /** Between two rankings no id has a rank in the current one. */
  ghost predicate Settled<K(!new)>(b: Books<K>, t: Tally<K>, damping: nat)
    requires damping >= 1
  {
    Kept(b, t, damping, t.seen, (x: K) => 0, 0.0)
  }

  lemma {:induction false} SameRanks<K(!new)>(b: Books<K>, t: Tally<K>, damping: nat, seen: seq<K>, rank: K -> nat,
                                              w: real, rank': K -> nat)
    requires damping >= 1 && Kept(b, t, damping, seen, rank, w) && forall y :: rank'(y) == rank(y)
    ensures Kept(b, t, damping, seen, rank', w)
  {
  }

  lemma {:induction false} StartRanking<K(!new)>(b: Books<K>, t: Tally<K>, damping: nat, w: real)
    requires damping >= 1 && Settled(b, t, damping)
    ensures Kept(b, t, damping, Extend(t.seen, []), Ranks([]), w)
  {
    assert forall y :: Ranks<K>([])(y) == 0;
  }

  /** One entry of the inner loop. */
  lemma {:induction false} EntryDone<K(!new)>(b: Books<K>, t: Tally<K>, damping: nat, prefix: seq<K>, w: real, x: K)
    requires damping >= 1 && Sensible(t) && Kept(b, t, damping, Extend(t.seen, prefix), Ranks(prefix), w)
    ensures var seen := Extend(t.seen, prefix);
      Kept(if x in prefix then b else Enter(b, x, w, damping, |Dedup(prefix)| + 1, |seen|), t, damping,
           Extend(t.seen, prefix + [x]), Ranks(prefix + [x]), w)
  {
    ExtendOneMore(t.seen, prefix, x);
    forall y
      ensures Ranks(prefix + [x])(y) == if y == x && x !in prefix then |Dedup(prefix)| + 1 else Ranks(prefix)(y)
    {
      OneMoreEntry(prefix, x, y);
    }
    if x in prefix {
      SameRanks(b, t, damping, Extend(t.seen, prefix), Ranks(prefix), w, Ranks(prefix + [x]));
    } else {
      EnterKeeps(b, t, damping, Extend(t.seen, prefix), Ranks(prefix), w, x, |Dedup(prefix)| + 1, Ranks(prefix + [x]));
    }
  }

  /** t1 is t with one more finished ranking. */
  ghost predicate Extends<K(!new)>(t1: Tally<K>, t: Tally<K>, damping: nat, ranking: seq<K>, w: real)
    requires damping >= 1
  {
    t1.seen == Extend(t.seen, ranking) &&
    (forall x :: t1.score(x) == t.score(x) + Gain(w, damping, Ranks(ranking)(x))) &&
    forall x :: t1.best(x) == Better(t.best(x), Ranks(ranking)(x))
  }

  lemma {:induction false} TallyExtends<K(!new)>(done: seq<seq<K>>, ws: seq<real>, damping: nat, ranking: seq<K>,
                                                 w: real)
    requires |ws| == |done| && damping >= 1
    ensures Extends(TallyOf(done + [ranking], ws + [w], damping), TallyOf(done, ws, damping), damping, ranking, w)
  {
    assert (done + [ranking])[..|done|] == done && (ws + [w])[..|ws|] == ws;
  }

  lemma {:induction false} FinishRanking<K(!new)>(b: Books<K>, t: Tally<K>, damping: nat, rank: K -> nat, w: real,
                                                  t1: Tally<K>)
    requires damping >= 1 && Kept(b, t, damping, t1.seen, rank, w)
    requires forall x :: t1.score(x) == t.score(x) + Gain(w, damping, rank(x))
    requires forall x :: t1.best(x) == Better(t.best(x), rank(x))
    ensures Settled(b, t1, damping)
  {
    assert Gain(0.0, damping, 0) == 0.0;
  }

  // ---------------------------------------------------------------- the final sort

  /** The sort key of the result, read from the dictionaries. */
  predicate SortsBefore<K(==, !new)>(b: Books<K>, x: K, y: K) {
    x in b.scores && y in b.scores && x in b.bestRank && y in b.bestRank && x in b.firstSeen && y in b.firstSeen &&
    (b.scores[x] > b.scores[y] ||
     (b.scores[x] == b.scores[y] &&
      (b.bestRank[x] < b.bestRank[y] || (b.bestRank[x] == b.bestRank[y] && b.firstSeen[x] < b.firstSeen[y]))))
  }

  lemma {:induction false} SortKeyIsTotal<K(!new)>(b: Books<K>, t: Tally<K>, damping: nat)
    requires damping >= 1 && Settled(b, t, damping)
    ensures StrictOrder((x: K, y: K) => SortsBefore(b, x, y), Elements(b.keys))
  {
    forall x, y | x in Elements(b.keys) && y in Elements(b.keys) && x != y
      ensures SortsBefore(b, x, y) || SortsBefore(b, y, x)
    {
      assert b.firstSeen[x] != b.firstSeen[y];
    }
  }

  lemma {:induction false} PositionIsRank<K(!new)>(s: seq<K>, x: K, i: nat)
    requires Distinct(s) && i < |s| && s[i] == x
    ensures RankIn(s, x) == i + 1
  {
  }

  lemma {:induction false} SortKeyIsRank<K(!new)>(b: Books<K>, t: Tally<K>, damping: nat, x: K, y: K)
    requires damping >= 1 && Sensible(t) && Settled(b, t, damping) && SortsBefore(b, x, y)
    ensures x in t.seen && y in t.seen
    ensures t.score(x) > t.score(y) ||
      (t.score(x) == t.score(y) && (t.best(x) < t.best(y) ||
                                    (t.best(x) == t.best(y) && RankIn(t.seen, x) < RankIn(t.seen, y))))
  {
    assert Gain(0.0, damping, 0) == 0.0;
    PositionIsRank(t.seen, x, b.firstSeen[x]);
    PositionIsRank(t.seen, y, b.firstSeen[y]);
  }

  function EffectiveWeights(weights: Option<seq<real>>, n: nat): seq<real> {
    if weights.Some? then weights.value else seq(n, _ => 1.0)
  }

  function Damping(k: int): (d: nat)
    ensures d >= 1 && (k >= 1 ==> d == k) && (k < 1 ==> d == 1)
  {
    if k < 1 then 1 else k
  }

  /** The variables of the loops. */
  datatype Pass<!K> = Pass(books: Books<K>, seenInRanking: set<K>, rank: nat, order: nat)

  function EnterKey<K(==, !new)>(p: Pass<K>, key: K, w: real, damping: nat): Pass<K>
    requires damping >= 1
  {
    if key in p.seenInRanking then p
    else
      Pass(Enter(p.books, key, w, damping, p.rank + 1, p.order), p.seenInRanking + {key}, p.rank + 1,
           if key !in p.books.firstSeen then p.order + 1 else p.order)
  }

  function EnterAll<K(==, !new)>(p: Pass<K>, ranking: seq<K>, w: real, damping: nat): Pass<K>
    requires damping >= 1
  {
    if ranking == [] then p
    else
      var n := |ranking| - 1;
      EnterKey(EnterAll(p, ranking[..n], w, damping), ranking[n], w, damping)
  }

  lemma {:induction false} EntryCounts<K(!new)>(seen: seq<K>, prefix: seq<K>, x: K)
    ensures |Dedup(prefix + [x])| == if x in prefix then |Dedup(prefix)| else |Dedup(prefix)| + 1
    ensures |Extend(seen, prefix + [x])| ==
      if x in Extend(seen, prefix) then |Extend(seen, prefix)| else |Extend(seen, prefix)| + 1
  {
    ExtendOneMore([], prefix, x);
    ExtendOneMore(seen, prefix, x);
  }

  /** Where the inner loop stands after the first entries of a ranking. */
  ghost predicate Midway<K(!new)>(p: Pass<K>, t: Tally<K>, damping: nat, prefix: seq<K>, w: real)
    requires damping >= 1
  {
    (forall x :: x in p.seenInRanking <==> x in prefix) && p.rank == |Dedup(prefix)| &&
    p.order == |Extend(t.seen, prefix)| && Kept(p.books, t, damping, Extend(t.seen, prefix), Ranks(prefix), w)
  }

  lemma {:induction false} MidwayStep<K(!new)>(p: Pass<K>, t: Tally<K>, damping: nat, prefix: seq<K>, w: real, key: K)
    requires damping >= 1 && Sensible(t) && Midway(p, t, damping, prefix, w)
    ensures Midway(EnterKey(p, key, w, damping), t, damping, prefix + [key], w)
  {
    EntryDone(p.books, t, damping, prefix, w, key);
    EntryCounts(t.seen, prefix, key);
    ExtendOneMore(t.seen, prefix, key);
  }

  lemma {:induction false} InitAndLast<K>(s: seq<K>)
    requires s != []
    ensures s[..|s| - 1] + [s[|s| - 1]] == s
  {
  }

  lemma {:induction false} MidwayToEnd<K(!new)>(p: Pass<K>, t: Tally<K>, damping: nat, ranking: seq<K>, w: real)
    requires damping >= 1 && Sensible(t) && Midway(p, t, damping, [], w)
    ensures Midway(EnterAll(p, ranking, w, damping), t, damping, ranking, w)
  {
    if ranking != [] {
      var n := |ranking| - 1;
      MidwayToEnd(p, t, damping, ranking[..n], w);
      MidwayStep(EnterAll(p, ranking[..n], w, damping), t, damping, ranking[..n], w, ranking[n]);
      InitAndLast(ranking);
    }
  }

  lemma {:induction false} Prefixes<K>(s: seq<K>, j: nat)
    requires j < |s|
    ensures s[..j + 1] != [] && s[..j + 1][..|s[..j + 1]| - 1] == s[..j] && s[..j + 1][|s[..j + 1]| - 1] == s[j]
  {
  }

  /** The inner loop: one ranking is entered into the books. */
  method EnterRanking<K(==, !new)>(start: Books<K>, startOrder: nat, damping: nat, ranking: seq<K>, weight: real)
    returns (books: Books<K>, order: nat)
    requires damping >= 1
    ensures var p := EnterAll(Pass(start, {}, 0, startOrder), ranking, weight, damping);
      books == p.books && order == p.order
  {
    books, order := start, startOrder;
    var seenInRanking: set<K> := {};
    var rank := 0;
    for j := 0 to |ranking|
      invariant Pass(books, seenInRanking, rank, order)
             == EnterAll(Pass(start, {}, 0, startOrder), ranking[..j], weight, damping)
    {
      var key := ranking[j];
      Prefixes(ranking, j);
      if key in seenInRanking {
        continue;
      }
      seenInRanking := seenInRanking + {key};
      rank := rank + 1;
      books, order := Enter(books, key, weight, damping, rank, order),
                      if key !in books.firstSeen then order + 1 else order;
    }
    assert ranking[..|ranking|] == ranking;
  }

  /** The state between two rankings. */
  ghost predicate Between<K(!new)>(books: Books<K>, order: nat, rankings: seq<seq<K>>, ws: seq<real>, damping: nat)
    requires |ws| == |rankings| && damping >= 1
  {
    var t := TallyOf(rankings, ws, damping);
    Settled(books, t, damping) && order == |t.seen|
  }

  lemma {:induction false} OneMoreRanking<K(!new)>(books: Books<K>, order: nat, done: seq<seq<K>>, ws: seq<real>,
                                                   damping: nat, ranking: seq<K>, w: real)
    requires |ws| == |done| && damping >= 1 && Between(books, order, done, ws, damping)
    ensures var p := EnterAll(Pass(books, {}, 0, order), ranking, w, damping);
      Between(p.books, p.order, done + [ranking], ws + [w], damping)
  {
    var t, t1 := TallyOf(done, ws, damping), TallyOf(done + [ranking], ws + [w], damping);
    var p := Pass(books, {}, 0, order);
    StartRanking(books, t, damping, w);
    MidwayToEnd(p, t, damping, ranking, w);
    TallyExtends(done, ws, damping, ranking, w);
    FinishRanking(EnterAll(p, ranking, w, damping).books, t, damping, Ranks(ranking), w, t1);
  }

  function TallyAll<K(==, !new)>(rankings: seq<seq<K>>, ws: seq<real>, damping: nat): (p: Pass<K>)
    requires |ws| == |rankings| && damping >= 1
  {
    if rankings == [] then Pass(Books([], map[], map[], map[]), {}, 0, 0)
    else
      var n := |rankings| - 1;
      var before := TallyAll(rankings[..n], ws[..n], damping);
      var after := EnterAll(Pass(before.books, {}, 0, before.order), rankings[n], ws[n], damping);
      Pass(after.books, {}, 0, after.order)
  }

  lemma {:induction false} TallyAllSettles<K(!new)>(rankings: seq<seq<K>>, ws: seq<real>, damping: nat)
    requires |ws| == |rankings| && damping >= 1
    ensures var p := TallyAll(rankings, ws, damping); Between(p.books, p.order, rankings, ws, damping)
  {
    if rankings != [] {
      var n := |rankings| - 1;
      TallyAllSettles(rankings[..n], ws[..n], damping);
      var before := TallyAll(rankings[..n], ws[..n], damping);
      OneMoreRanking(before.books, before.order, rankings[..n], ws[..n], damping, rankings[n], ws[n]);
      InitAndLast(rankings);
      InitAndLast(ws);
    }
  }

  /** The two nested loops. */
  method TallyRankings<K(==, !new)>(rankings: seq<seq<K>>, ws: seq<real>, damping: nat) returns (books: Books<K>)
    requires |ws| == |rankings| && damping >= 1
    ensures Settled(books, TallyOf(rankings, ws, damping), damping)
  {
    books := Books([], map[], map[], map[]);
    var order := 0;
    for i := 0 to |rankings|
      invariant Pass(books, {}, 0, order) == TallyAll(rankings[..i], ws[..i], damping)
    {
      Prefixes(rankings, i);
      Prefixes(ws, i);
      books, order := EnterRanking(books, order, damping, rankings[i], ws[i]);
    }
    assert rankings[..|rankings|] == rankings && ws[..|ws|] == ws;
    TallyAllSettles(rankings, ws, damping);
  }

  ghost predicate SortedKeys<K(!new)>(books: Books<K>, t: Tally<K>, keys: seq<K>) {
    (forall x :: x in keys <==> x in t.seen) &&
    forall i, j :: 0 <= i < j < |keys| ==> SortsBefore(books, keys[i], keys[j])
  }

  lemma {:induction false} KeysGetSorted<K(!new)>(books: Books<K>, t: Tally<K>, damping: nat, less: (K, K) -> bool)
    requires damping >= 1 && Sensible(t) && Settled(books, t, damping)
    requires less == ((x: K, y: K) => SortsBefore(books, x, y))
    ensures SortedKeys(books, t, Sort(less, books.keys))
  {
    SortKeyIsTotal(books, t, damping);
    var keys := Sort(less, books.keys);
    SortSorts(less, Elements(books.keys), books.keys);
    SameElements(books.keys, keys);
    forall x ensures x in keys <==> x in t.seen {
      assert x in Elements(keys) <==> x in Elements(books.keys);
    }
    forall i, j | 0 <= i < j < |keys| ensures SortsBefore(books, keys[i], keys[j]) {
      assert less(keys[i], keys[j]);
    }
  }

  function Scored<K(==, !new)>(keys: seq<K>, scores: map<K, real>): (fused: seq<(K, real)>)
    requires forall x :: x in keys ==> x in scores
    ensures |fused| == |keys|
    ensures forall i :: 0 <= i < |keys| ==> fused[i] == (keys[i], scores[keys[i]])
  {
    seq(|keys|, i requires 0 <= i < |keys| => (keys[i], scores[keys[i]]))
  }

  lemma {:induction false} ScoredHolds<K(!new)>(books: Books<K>, t: Tally<K>, damping: nat, keys: seq<K>)
    requires damping >= 1 && Settled(books, t, damping) && forall x :: x in keys <==> x in t.seen
    ensures var fused := Scored(keys, books.scores);
      KeysOf(fused) == keys && forall i :: 0 <= i < |fused| ==> fused[i].1 == t.score(fused[i].0)
  {
    assert Gain(0.0, damping, 0) == 0.0;
    assert KeysOf(Scored(keys, books.scores)) == keys;
  }

  /** The sorted() call at the end. */
  method SortBooks<K(==, !new)>(books: Books<K>, ghost t: Tally<K>, ghost damping: nat) returns (fused: seq<(K, real)>)
    requires damping >= 1 && Sensible(t) && Settled(books, t, damping)
    ensures SortedKeys(books, t, KeysOf(fused))
    ensures forall i :: 0 <= i < |fused| ==> fused[i].1 == t.score(fused[i].0)
  {
    var less := (x: K, y: K) => SortsBefore(books, x, y);
    KeysGetSorted(books, t, damping, less);
    var keys := Sort(less, books.keys);
    fused := Scored(keys, books.scores);
    ScoredHolds(books, t, damping, keys);
  }

  lemma {:induction false} SortedIsFusion<K(!new)>(rankings: seq<seq<K>>, ws: seq<real>, damping: nat, books: Books<K>,
                                                   fused: seq<(K, real)>)
    requires |ws| == |rankings| && damping >= 1
    requires var t := TallyOf(rankings, ws, damping);
      Settled(books, t, damping) && SortedKeys(books, t, KeysOf(fused)) &&
      forall i :: 0 <= i < |fused| ==> fused[i].1 == t.score(fused[i].0)
    ensures IsFusion(rankings, ws, damping, fused)
  {
    var t := TallyOf(rankings, ws, damping);
    FirstSeenNumbers(rankings);
    forall i, j | 0 <= i < j < |fused| ensures Outranks(rankings, ws, damping, fused[i].0, fused[j].0) {
      assert SortsBefore(books, KeysOf(fused)[i], KeysOf(fused)[j]);
      SortKeyIsRank(books, t, damping, fused[i].0, fused[j].0);
    }
  }

  method ReciprocalRankFusion<K(==, !new)>(rankings: seq<seq<K>>, k: int, weights: Option<seq<real>>)
    returns (result: Result<seq<(K, real)>>)
    ensures rankings == [] ==> result == Success([])
    ensures result.Invalid? <==> rankings != [] && weights.Some? && |weights.value| != |rankings|
    ensures rankings != [] && result.Success? ==>
      IsFusion(rankings, EffectiveWeights(weights, |rankings|), Damping(k), result.value)
  {
    if rankings == [] {
      return Success([]);
    }
    var ws := EffectiveWeights(weights, |rankings|);
    if |ws| != |rankings| {
      return Invalid("weights", "weights must have one entry per ranking");
    }
    var damping := Damping(k);
    var books := TallyRankings(rankings, ws, damping);
    var fused := SortBooks(books, TallyOf(rankings, ws, damping), damping);
    SortedIsFusion(rankings, ws, damping, books, fused);
    result := Success(fused);
  }

  // ---------------------------------------------------------------- the result is determined

  lemma {:induction false} OutranksIsStrict<K(!new)>(rankings: seq<seq<K>>, ws: seq<real>, damping: nat, dom: set<K>)
    requires |ws| == |rankings| && damping >= 1
    requires forall x :: x in dom ==> x in FirstSeen(rankings)
    ensures StrictOrder((x: K, y: K) => Outranks(rankings, ws, damping, x, y), dom)
  {
    forall x, y | x in dom && y in dom && x != y
      ensures Outranks(rankings, ws, damping, x, y) || Outranks(rankings, ws, damping, y, x)
    {
      if RankIn(FirstSeen(rankings), x) == RankIn(FirstSeen(rankings), y) {
        RankDetermines(FirstSeen(rankings), x, y);
      }
    }
  }

  /** There is only one list that holds every id once, with its score, in this order: the result does not depend on the
      sorting algorithm, nor on the order in which a dictionary is walked. */
  lemma {:induction false} FusionIsUnique<K(!new)>(rankings: seq<seq<K>>, ws: seq<real>, damping: nat,
                                                   a: seq<(K, real)>, b: seq<(K, real)>)
    requires |ws| == |rankings| && damping >= 1
    requires IsFusion(rankings, ws, damping, a) && IsFusion(rankings, ws, damping, b)
    ensures a == b
  {
    var less := (x: K, y: K) => Outranks(rankings, ws, damping, x, y);
    var ka, kb := KeysOf(a), KeysOf(b);
    var dom := Elements(ka);
    FirstSeenNumbers(rankings);
    OutranksIsStrict(rankings, ws, damping, dom);
    assert Elements(ka) == Elements(kb) by {
      forall x ensures x in ka <==> x in kb {}
    }
    SortedUnique(less, dom, ka, kb);
    assert forall i :: 0 <= i < |a| ==> a[i].0 == ka[i] && b[i].0 == kb[i];
  }

  // ---------------------------------------------------------------- consensus

  lemma {:induction false} Positive(p: real, q: real, r: real)
    requires p > 0.0 && q > 0.0 && r > 0.0
    ensures p * q > 0.0 && p * q * r > 0.0
  {
  }

  lemma {:induction false} SignOfQuotient(x: real, d: real)
    requires d > 0.0
    ensures (x / d > 0.0 <==> x > 0.0) && (x / d == 0.0 <==> x == 0.0)
  {
    assert x == x / d * d;
  }

  lemma {:induction false} SignOfProduct(w: real, x: real)
    requires w > 0.0
    ensures (w * x > 0.0 <==> x > 0.0) && (w * x == 0.0 <==> x == 0.0)
  {
  }

  lemma {:induction false} QuotientIs(x: real, d: real, y: real)
    requires d > 0.0 && x * d == y
    ensures x == y / d
  {
  }

  lemma {:induction false} Expand(w: real, p: real, q: real, r: real)
    requires p > 0.0 && q > 0.0 && r > 0.0 && p * q * r > 0.0
    ensures w / p == w * q * r / (p * q * r)
  {
    var x := w / p;
    assert x * p == w;
    assert x * (p * q * r) == (x * p) * q * r;
    QuotientIs(x, p * q * r, w * q * r);
  }

  lemma {:induction false} CommonDenominator(w: real, p: real, q: real, r: real)
    requires p > 0.0 && q > 0.0 && r > 0.0 && p * q * r > 0.0
    ensures w / p + w / q - w / r == w * ((p + q) * r - p * q) / (p * q * r)
  {
    var d := p * q * r;
    Expand(w, p, q, r);
    Expand(w, q, p, r);
    Expand(w, r, p, q);
    assert q * p * r == d && r * p * q == d;
    assert w * q * r + w * p * r - w * p * q == w * ((p + q) * r - p * q);
  }

  /** 1/p + 1/q against 1/r, over positive denominators. */
  lemma {:induction false} SumOfShares(w: real, p: real, q: real, r: real)
    requires w > 0.0 && p > 0.0 && q > 0.0 && r > 0.0
    ensures w / p + w / q > w / r <==> (p + q) * r > p * q
    ensures w / p + w / q == w / r <==> (p + q) * r == p * q
  {
    var d := p * q * r;
    Positive(p, q, r);
    CommonDenominator(w, p, q, r);
    var gap := w * ((p + q) * r - p * q);
    assert w / p + w / q - w / r == gap / d;
    SignOfQuotient(gap, d);
    SignOfProduct(w, (p + q) * r - p * q);
  }

  lemma {:induction false} TwoRankings<K(!new)>(a: seq<K>, b: seq<K>, w: real, damping: nat, x: K)
    requires damping >= 1
    ensures Score([a, b], [w, w], damping, x) == Gain(w, damping, Rank(a, x)) + Gain(w, damping, Rank(b, x))
    ensures BestRank([a, b], x) == Better(Rank(a, x), Rank(b, x))
  {
    var rs: seq<seq<K>> := [a, b];
    assert rs[..1] == [a] && [w, w][..1] == [w];
    assert [a][..0] == [] && [w][..0] == [];
    assert Score([a], [w], damping, x) == Gain(w, damping, Rank(a, x));
    assert BestRank([a], x) == Rank(a, x);
  }

  lemma {:induction false} LargeDenominator(p: int, q: int, r: int)
    requires p > 0 && q > 0 && r >= p
    ensures (p + q) * r > p * q
  {
    assert p * r > 0 && q * r >= q * p;
  }

  lemma {:induction false} SharesAreIntegral(p: int, q: int, r: int)
    ensures (p as real + q as real) * r as real > p as real * q as real <==> (p + q) * r > p * q
    ensures (p as real + q as real) * r as real == p as real * q as real <==> (p + q) * r == p * q
  {
    assert ((p + q) * r) as real == (p as real + q as real) * r as real;
    assert (p * q) as real == p as real * q as real;
  }

  /** Two ranks against one, in integers. On a tie the one rank is better than both. */
  lemma {:induction false} ScoresCompare(w: real, k: nat, a: nat, b: nat, c: nat)
    requires w > 0.0 && k >= 1 && a > 0 && b > 0 && c > 0
    ensures var shared, single := Gain(w, k, a) + Gain(w, k, b), Gain(w, k, c);
      (shared > single <==> (2 * k + a + b) * (k + c) > (k + a) * (k + b)) && (shared == single ==> c < a && c < b)
  {
    var p, q, r := k + a, k + b, k + c;
    SumOfShares(w, p as real, q as real, r as real);
    SharesAreIntegral(p, q, r);
    assert (2 * k + a + b) * (k + c) == (p + q) * r;
    if r >= p {
      LargeDenominator(p, q, r);
    }
    if r >= q {
      LargeDenominator(q, p, r);
    }
  }

  /** Two rankings of equal positive weight, x in both at ranks a and b, y in only one, at rank c: x comes first exactly
      when (2k + a + b)(k + c) > (k + a)(k + b). */
  lemma {:induction false} ConsensusExactly<K(!new)>(first: seq<K>, second: seq<K>, w: real, damping: nat, x: K, y: K)
    requires damping >= 1 && w > 0.0
    requires x in first && x in second && (y in first <==> y !in second)
    ensures var a, b := Rank(first, x), Rank(second, x);
      var c := if y in first then Rank(first, y) else Rank(second, y);
      Outranks([first, second], [w, w], damping, x, y) <==>
      (2 * damping + a + b) * (damping + c) > (damping + a) * (damping + b)
  {
    var a, b := Rank(first, x), Rank(second, x);
    var c := if y in first then Rank(first, y) else Rank(second, y);
    TwoRankings(first, second, w, damping, x);
    TwoRankings(first, second, w, damping, y);
    ScoresCompare(w, damping, a, b, c);
    assert Score([first, second], [w, w], damping, y) == Gain(w, damping, c);
    assert BestRank([first, second], y) == c && BestRank([first, second], x) == if a <= b then a else b;
  }

  lemma {:induction false} Grows(p: int, m: int, q: int)
    requires p > 0 && m >= q
    ensures p * m >= p * q
  {
  }

  lemma {:induction false} Regroup(p: int, q: int, m: int)
    ensures p * (2 * m) + q * (2 * m) == 2 * ((p + q) * m)
    ensures p * (q + 1) + q * (p + 1) == 2 * (p * q) + p + q
  {
  }

  lemma {:induction false} WithinTheBound(k: nat, a: nat, b: nat, c: nat)
    requires 0 < a <= k + 1 && 0 < b <= k + 1 && c > 0
    ensures (2 * k + a + b) * (k + c) > (k + a) * (k + b)
  {
    var p, q := k + a, k + b;
    Grows(p + q, k + c, k + 1);
    Grows(p, 2 * (k + 1), q + 1);
    Grows(q, 2 * (k + 1), p + 1);
    Regroup(p, q, k + 1);
  }

  /** Consensus wins whenever both of its ranks are at most k + 1. */
  lemma {:induction false} ConsensusWins<K(!new)>(first: seq<K>, second: seq<K>, w: real, damping: nat, x: K, y: K)
    requires damping >= 1 && w > 0.0
    requires x in first && x in second && (y in first <==> y !in second)
    requires Rank(first, x) <= damping + 1 && Rank(second, x) <= damping + 1
    ensures Outranks([first, second], [w, w], damping, x, y)
  {
    ConsensusExactly(first, second, w, damping, x, y);
    var c := if y in first then Rank(first, y) else Rank(second, y);
    assert c > 0;
    WithinTheBound(damping, Rank(first, x), Rank(second, x), c);
  }

  lemma {:induction false} DoubledSquare(m: int)
    ensures (4 * m) * m == (2 * m) * (2 * m)
  {
  }

  /** The bound is sharp: at rank k + 2 in both rankings an id ties with the leader of one and loses on best rank. */
  lemma {:induction false} ConsensusLosesPastTheBound<K(!new)>(first: seq<K>, second: seq<K>, w: real, damping: nat,
                                                               x: K, y: K)
    requires damping >= 1 && w > 0.0
    requires x in first && x in second && (y in first <==> y !in second)
    requires Rank(first, x) == damping + 2 && Rank(second, x) == damping + 2
    requires Rank(first, y) == 1 || Rank(second, y) == 1
    ensures !Outranks([first, second], [w, w], damping, x, y)
  {
    ConsensusExactly(first, second, w, damping, x, y);
    DoubledSquare(damping + 1);
    assert damping + (damping + 2) == 2 * (damping + 1);
  }

  // ---------------------------------------------------------------- positions

  lemma {:induction false} ExtendPrefix<K(!new)>(acc: seq<K>, s: seq<K>, t: seq<K>)
    ensures Extend(acc, s) <= Extend(acc, s + t)
  {
    if t == [] {
      assert s + t == s;
    } else {
      var n := |t| - 1;
      ExtendPrefix(acc, s, t[..n]);
      assert s + t == (s + t[..n]) + [t[n]];
      ExtendOneMore(acc, s + t[..n], t[n]);
    }
  }

  lemma {:induction false} DistinctPlusOne<K(!new)>(s: seq<K>, x: K)
    requires x !in s
    ensures Distinct(s + [x]) <==> Distinct(s)
  {
    if Distinct(s + [x]) {
      forall i, j | 0 <= i < j < |s| ensures s[i] != s[j] {
        assert (s + [x])[i] != (s + [x])[j];
      }
    }
  }

  lemma {:induction false} DedupShrinks<K(!new)>(s: seq<K>)
    ensures |Dedup(s)| <= |s| && (|Dedup(s)| == |s| <==> Distinct(s))
  {
    if s != [] {
      var n := |s| - 1;
      DedupShrinks(s[..n]);
      assert s == s[..n] + [s[n]];
      if s[n] in s[..n] {
        var i :| 0 <= i < n && s[..n][i] == s[n];
        assert s[i] == s[n] && !Distinct(s);
      } else {
        DistinctPlusOne(s[..n], s[n]);
      }
    }
  }

  /** rank_positions counts repetitions that the fusion skips: its positions are the fused ranks exactly as long as
      nothing has been repeated before. */
  lemma {:induction false} PositionsAgree<K(!new)>(ranking: seq<K>, x: K)
    requires x in ranking
    ensures Rank(ranking, x) <= RankIn(ranking, x)
    ensures Rank(ranking, x) == RankIn(ranking, x) <==> Distinct(ranking[..RankIn(ranking, x)])
  {
    var r := RankIn(ranking, x);
    var prefix, rest := ranking[..r - 1], ranking[r..];
    assert ranking == (prefix + [x]) + rest;
    assert x !in prefix;
    ExtendOneMore([], prefix, x);
    ExtendPrefix([], prefix + [x], rest);
    RankAtEnd(Dedup(prefix), x);
    RankInPrefix(Dedup(prefix + [x]), Dedup(ranking), x);
    DedupShrinks(prefix);
    assert ranking[..r] == prefix + [x];
    DistinctPlusOne(prefix, x);
  }

  lemma {:induction false} RankOfThird<K(!new)>(a: K, b: K, c: K)
    requires a != b && b != c && a != c
    ensures Rank([a, b, c], c) == 3 && Rank([a, b, c], a) == 1
  {
    var s := [a, b, c];
    assert s[1..] == [b, c] && [b, c][1..] == [c];
    assert RankIn(s, c) == 3 && RankIn(s, a) == 1;
    PositionsAgree(s, c);
    PositionsAgree(s, a);
    assert s[..3] == s && s[..1] == [a];
  }

  /** The smallest such case, with k = 1: x is third in both lists, and y, the leader of one, comes before it. */
  lemma {:induction false} ConsensusCanLose()
    ensures !Outranks([["y", "p", "x"], ["q", "r", "x"]], [1.0, 1.0], 1, "x", "y")
  {
    RankOfThird("y", "p", "x");
    RankOfThird("q", "r", "x");
    ConsensusLosesPastTheBound(["y", "p", "x"], ["q", "r", "x"], 1.0, 1, "x", "y");
  }
}
