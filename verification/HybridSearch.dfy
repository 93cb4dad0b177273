/** Fusion of the vector and the text branch of a search, and the reranking of the fused candidates. */
module HybridSearch {
  import opened Selections
  import opened Outcomes
  import opened Sorting
  import opened RankFusion

  class RetrievedChunk {
    const chunkId: string
    var score: real
    var vectorScore: Option<real>
    var textScore: Option<real>
    var fusionScore: Option<real>
    var rerankScore: Option<real>
    var vectorRank: Option<nat>
    var textRank: Option<nat>

    constructor (chunkId: string, vectorScore: Option<real>, textScore: Option<real>)
      ensures this.chunkId == chunkId && this.vectorScore == vectorScore && this.textScore == textScore
    {
      this.chunkId, this.vectorScore, this.textScore := chunkId, vectorScore, textScore;
      score, fusionScore, rerankScore, vectorRank, textRank := 0.0, None, None, None, None;
    }
  }

  function IdsOf(rows: seq<RetrievedChunk>): (ids: seq<string>)
    ensures |ids| == |rows| && forall i :: 0 <= i < |ids| ==> ids[i] == rows[i].chunkId
  {
    seq(|rows|, i requires 0 <= i < |rows| => rows[i].chunkId)
  }

  function VectorScores(rows: seq<RetrievedChunk>): (scores: seq<Option<real>>)
    reads rows
    ensures |scores| == |rows| && forall i :: 0 <= i < |scores| ==> scores[i] == rows[i].vectorScore
  {
    seq(|rows|, i requires 0 <= i < |rows| reads rows => rows[i].vectorScore)
  }

  function TextScores(rows: seq<RetrievedChunk>): (scores: seq<Option<real>>)
    reads rows
    ensures |scores| == |rows| && forall i :: 0 <= i < |scores| ==> scores[i] == rows[i].textScore
  {
    seq(|rows|, i requires 0 <= i < |rows| reads rows => rows[i].textScore)
  }

  /** Ids and scores as the fusion returns them. */
  function Scoring(chunks: seq<RetrievedChunk>): (scoring: seq<(string, real)>)
    reads chunks
    ensures |scoring| == |chunks|
    ensures forall i :: 0 <= i < |chunks| ==> scoring[i] == (chunks[i].chunkId, chunks[i].score)
  {
    seq(|chunks|, i requires 0 <= i < |chunks| reads chunks => (chunks[i].chunkId, chunks[i].score))
  }

  // ---------------------------------------------------------------- merging the rows of both branches

  /** a or b: the first score unless it is absent or zero. */
  function Or(a: Option<real>, b: Option<real>): Option<real> {
    if a.Some? && a.value != 0.0 then a else b
  }

  function MergedWith(merged: map<string, Option<real>>, id: string, score: Option<real>): map<string, Option<real>> {
    merged[id := if id in merged then Or(merged[id], score) else score]
  }

  /** The score of every id after the rows that carry it have been merged in order. */
  function MergedScores(ids: seq<string>, scores: seq<Option<real>>): (merged: map<string, Option<real>>)
    requires |ids| == |scores|
    ensures forall id :: id in merged <==> id in ids
  {
    if ids == [] then map[]
    else
      var n := |ids| - 1;
      assert ids == ids[..n] + [ids[n]];
      MergedWith(MergedScores(ids[..n], scores[..n]), ids[n], scores[n])
  }

  predicate NonZero(score: Option<real>) {
    score.Some? && score.value != 0.0
  }

  lemma {:induction false} MergedStaysZero(ids: seq<string>, scores: seq<Option<real>>, id: string)
    requires |ids| == |scores| && id in ids
    requires forall j :: 0 <= j < |ids| && ids[j] == id ==> !NonZero(scores[j])
    ensures !NonZero(MergedScores(ids, scores)[id])
  {
    var n := |ids| - 1;
    if id in ids[..n] {
      MergedStaysZero(ids[..n], scores[..n], id);
    }
  }

  /** What merging means: the first score of an id that is neither absent nor zero wins. */
  lemma {:induction false} MergedIsFirstNonZero(ids: seq<string>, scores: seq<Option<real>>, i: nat)
    requires |ids| == |scores| && i < |ids| && NonZero(scores[i])
    requires forall j :: 0 <= j < i && ids[j] == ids[i] ==> !NonZero(scores[j])
    ensures MergedScores(ids, scores)[ids[i]] == scores[i]
  {
    var n := |ids| - 1;
    if i < n {
      MergedIsFirstNonZero(ids[..n], scores[..n], i);
    } else if ids[i] in ids[..n] {
      MergedStaysZero(ids[..n], scores[..n], ids[i]);
    }
  }

  /** The first chunk of every id. */
  function ById(rows: seq<RetrievedChunk>): map<string, RetrievedChunk> {
    if rows == [] then map[]
    else
      var before, chunk := ById(rows[..|rows| - 1]), rows[|rows| - 1];
      if chunk.chunkId in before then before else before[chunk.chunkId := chunk]
  }

  lemma {:induction false} ByIdStep(rows: seq<RetrievedChunk>, i: nat)
    requires i < |rows|
    ensures ById(rows[..i + 1]) ==
      (var m, c := ById(rows[..i]), rows[i]; if c.chunkId in m then m else m[c.chunkId := c])
  {
    assert rows[..i + 1][..i] == rows[..i];
  }

  lemma {:induction false} MergedStep(ids: seq<string>, scores: seq<Option<real>>, i: nat)
    requires |ids| == |scores| && i < |ids|
    ensures MergedScores(ids[..i + 1], scores[..i + 1])
         == MergedWith(MergedScores(ids[..i], scores[..i]), ids[i], scores[i])
  {
    assert ids[..i + 1][..i] == ids[..i] && scores[..i + 1][..i] == scores[..i];
  }

  /** Every chunk of the map stands under its own id and is one of the rows. */
  lemma {:induction false} ByIdIsSound(rows: seq<RetrievedChunk>, id: string)
    requires id in ById(rows)
    ensures ById(rows)[id].chunkId == id && ById(rows)[id] in rows
  {
    if rows != [] {
      var n := |rows| - 1;
      if id in ById(rows[..n]) {
        ByIdIsSound(rows[..n], id);
      }
    }
  }

  /** The map holds the ids of the rows, each at the first row that carries it. */
  lemma {:induction false} ByIdIsFirst(rows: seq<RetrievedChunk>, id: string)
    ensures id in ById(rows) <==> id in IdsOf(rows)
    ensures id in ById(rows) ==> ById(rows)[id] == rows[RankIn(IdsOf(rows), id) - 1]
  {
    if rows != [] {
      var n := |rows| - 1;
      ByIdIsFirst(rows[..n], id);
      var ids, init := IdsOf(rows), IdsOf(rows[..n]);
      assert ids == init + [rows[n].chunkId] && rows == rows[..n] + [rows[n]];
      if id in init {
        RankInPrefix(init, ids, id);
      } else if id == rows[n].chunkId {
        RankAtEnd(init, id);
      }
    }
  }

  ghost predicate Carries(c: RetrievedChunk, v: Option<real>, t: Option<real>)
    reads c
  {
    c.vectorScore == v && c.textScore == t
  }

  /** The chunks so far, under their own ids, carry the merged scores. */
  ghost predicate AllCarry(byId: map<string, RetrievedChunk>, mv: map<string, Option<real>>,
                           mt: map<string, Option<real>>)
    reads byId.Values
  {
    byId.Keys == mv.Keys == mt.Keys &&
    forall id :: id in byId ==> byId[id].chunkId == id && Carries(byId[id], mv[id], mt[id])
  }

  /** The rows from i on carry their own scores and are not among the chunks so far. */
  ghost predicate StillAhead(rows: seq<RetrievedChunk>, i: nat, byId: map<string, RetrievedChunk>,
                             vs: seq<Option<real>>, ts: seq<Option<real>>)
    requires |vs| == |ts| == |rows|
    reads rows
  {
    forall j :: i <= j < |rows| ==> Carries(rows[j], vs[j], ts[j]) && rows[j] !in byId.Values
  }

  /** One row: kept as the chunk of its id, or merged into the chunk that already stands for it. */
  method MergeRow(byId: map<string, RetrievedChunk>, chunk: RetrievedChunk,
                  ghost mv: map<string, Option<real>>, ghost mt: map<string, Option<real>>)
    returns (next: map<string, RetrievedChunk>)
    requires AllCarry(byId, mv, mt) && chunk !in byId.Values
    modifies byId.Values
    ensures next == if chunk.chunkId in byId then byId else byId[chunk.chunkId := chunk]
    ensures AllCarry(next, MergedWith(mv, chunk.chunkId, chunk.vectorScore),
                     MergedWith(mt, chunk.chunkId, chunk.textScore))
  {
    if chunk.chunkId !in byId {
      return byId[chunk.chunkId := chunk];
    }
    var existing := byId[chunk.chunkId];
    existing.vectorScore := Or(existing.vectorScore, chunk.vectorScore);
    existing.textScore := Or(existing.textScore, chunk.textScore);
    next := byId;
  }

  method MergeRows(rows: seq<RetrievedChunk>) returns (byId: map<string, RetrievedChunk>)
    requires Distinct(rows)
    modifies rows
    ensures byId == ById(rows)
    ensures AllCarry(byId, MergedScores(IdsOf(rows), old(VectorScores(rows))),
                     MergedScores(IdsOf(rows), old(TextScores(rows))))
  {
    byId := map[];
    ghost var ids, vs, ts := IdsOf(rows), VectorScores(rows), TextScores(rows);
    ghost var mv: map<string, Option<real>>, mt: map<string, Option<real>> := map[], map[];
    for i := 0 to |rows|
      invariant byId == ById(rows[..i]) && forall c :: c in byId.Values ==> c in rows
      invariant mv == MergedScores(ids[..i], vs[..i]) && mt == MergedScores(ids[..i], ts[..i])
      invariant AllCarry(byId, mv, mt) && StillAhead(rows, i, byId, vs, ts)
    {
      ByIdStep(rows, i);
      MergedStep(ids, vs, i);
      MergedStep(ids, ts, i);
      mv, mt := MergedWith(mv, ids[i], vs[i]), MergedWith(mt, ids[i], ts[i]);
      byId := MergeRow(byId, rows[i], MergedScores(ids[..i], vs[..i]), MergedScores(ids[..i], ts[..i]));
    }
    assert rows[..|rows|] == rows && ids[..|rows|] == ids && vs[..|rows|] == vs && ts[..|rows|] == ts;
  }

  lemma {:induction false} FirstHere(ids: seq<string>, i: nat)
    requires i < |ids| && ids[i] !in ids[..i]
    ensures RankIn(ids, ids[i]) == i + 1
  {
    assert forall j :: 0 <= j < i ==> ids[..i][j] == ids[j];
  }

  /** The place of the first occurrence, counted from 1. */
  function PositionOf(ranking: seq<string>, id: string): (position: Option<nat>)
    ensures position.None? <==> id !in ranking
    ensures position.Some? ==>
      var p := position.value; 1 <= p <= |ranking| && ranking[p - 1] == id && id !in ranking[..p - 1]
  {
    if id in ranking then Some(RankIn(ranking, id)) else None
  }

  function Lookup(positions: map<string, nat>, id: string): Option<nat> {
    if id in positions then Some(positions[id]) else None
  }

  /** rank_positions: the first position of every id, counted from 1. */
  method RankPositions(ranking: seq<string>) returns (positions: map<string, nat>)
    ensures forall id :: Lookup(positions, id) == PositionOf(ranking, id)
  {
    positions := map[];
    for i := 0 to |ranking|
      invariant forall id :: id in positions <==> id in ranking[..i]
      invariant forall id :: id in positions ==> positions[id] == RankIn(ranking, id)
    {
      assert ranking[..i + 1] == ranking[..i] + [ranking[i]];
      if ranking[i] !in positions {
        FirstHere(ranking, i);
        positions := positions[ranking[i] := i + 1];
      }
    }
    assert ranking[..|ranking|] == ranking;
  }

  /** A chunk that has been given its fused score and its ranks. */
  ghost predicate IsStamped(c: RetrievedChunk, entry: (string, real), byId: map<string, RetrievedChunk>,
                            vectorPositions: map<string, nat>, textPositions: map<string, nat>)
    reads c
  {
    entry.0 in byId && c == byId[entry.0] && c.score == entry.1 && c.fusionScore == Some(entry.1) &&
    c.vectorRank == Lookup(vectorPositions, entry.0) && c.textRank == Lookup(textPositions, entry.0)
  }

  method StampChunk(chunk: RetrievedChunk, score: real, vectorRank: Option<nat>, textRank: Option<nat>)
    modifies chunk`fusionScore, chunk`score, chunk`vectorRank, chunk`textRank
    ensures chunk.fusionScore == Some(score) && chunk.score == score
    ensures chunk.vectorRank == vectorRank && chunk.textRank == textRank
  {
    chunk.fusionScore := Some(score);
    chunk.score := score;
    chunk.vectorRank := vectorRank;
    chunk.textRank := textRank;
  }

  /** Writes the fused scores and ranks into the chunks. */
  method Stamp(fused: seq<(string, real)>, byId: map<string, RetrievedChunk>,
               vectorPositions: map<string, nat>, textPositions: map<string, nat>,
               ghost mv: map<string, Option<real>>, ghost mt: map<string, Option<real>>)
    returns (ordered: seq<RetrievedChunk>)
    requires forall i :: 0 <= i < |fused| ==> fused[i].0 in byId
    requires Distinct(KeysOf(fused)) && AllCarry(byId, mv, mt)
    modifies byId.Values
    ensures Scoring(ordered) == fused && AllCarry(byId, mv, mt)
    ensures forall i :: 0 <= i < |ordered| ==> IsStamped(ordered[i], fused[i], byId, vectorPositions, textPositions)
  {
    ordered := [];
    for i := 0 to |fused|
      invariant |ordered| == i && AllCarry(byId, mv, mt)
      invariant forall j :: 0 <= j < i ==> IsStamped(ordered[j], fused[j], byId, vectorPositions, textPositions)
    {
      var (chunkId, score) := fused[i];
      var chunk := byId[chunkId];
      assert forall j :: 0 <= j < i ==> KeysOf(fused)[j] != KeysOf(fused)[i] && ordered[j] != chunk;
      StampChunk(chunk, score, Lookup(vectorPositions, chunkId), Lookup(textPositions, chunkId));
      ordered := ordered + [chunk];
    }
    assert Scoring(ordered) == fused;
  }

  /** A chunk as the fusion leaves it: the first row that carries its id, with the merged scores of all rows that do,
      its fused score and its position in either branch. */
  ghost predicate IsCandidate(c: RetrievedChunk, rows: seq<RetrievedChunk>, vectorIds: seq<string>,
                              textIds: seq<string>, vs: seq<Option<real>>,
                              ts: seq<Option<real>>)
    requires |vs| == |ts| == |rows|
    reads c
  {
    c.chunkId in IdsOf(rows) && c == rows[RankIn(IdsOf(rows), c.chunkId) - 1] && c.fusionScore == Some(c.score) &&
    c.vectorRank == PositionOf(vectorIds, c.chunkId) && c.textRank == PositionOf(textIds, c.chunkId) &&
    Carries(c, MergedScores(IdsOf(rows), vs)[c.chunkId], MergedScores(IdsOf(rows), ts)[c.chunkId])
  }

  lemma {:induction false} FusedIdsAreRows(vectorIds: seq<string>, textIds: seq<string>, ws: seq<real>, damping: nat,
                                           fused: seq<(string, real)>)
    requires |ws| == 2 && damping >= 1 && IsFusion([vectorIds, textIds], ws, damping, fused)
    ensures forall i :: 0 <= i < |fused| ==> fused[i].0 in vectorIds + textIds
    ensures Distinct(KeysOf(fused))
  {
    forall i | 0 <= i < |fused| ensures fused[i].0 in vectorIds + textIds {
      assert KeysOf(fused)[i] in KeysOf(fused);
    }
    forall i, j | 0 <= i < j < |fused| ensures KeysOf(fused)[i] != KeysOf(fused)[j] {
      assert Outranks([vectorIds, textIds], ws, damping, fused[i].0, fused[j].0);
    }
  }

  method FuseIds(vectorIds: seq<string>, textIds: seq<string>, k: int, weights: seq<real>)
    returns (fused: seq<(string, real)>)
    requires |weights| == 2
    ensures IsFusion([vectorIds, textIds], weights, Damping(k), fused)
    ensures forall i :: 0 <= i < |fused| ==> fused[i].0 in vectorIds + textIds
    ensures Distinct(KeysOf(fused))
  {
    var fusion := ReciprocalRankFusion([vectorIds, textIds], k, Some(weights));
    fused := fusion.value;
    FusedIdsAreRows(vectorIds, textIds, weights, Damping(k), fused);
  }

  lemma {:induction false} FusedIdsHaveChunks(rows: seq<RetrievedChunk>, ids: seq<string>, fused: seq<(string, real)>)
    requires ids == IdsOf(rows) && forall i :: 0 <= i < |fused| ==> fused[i].0 in ids
    ensures forall i :: 0 <= i < |fused| ==> fused[i].0 in ById(rows) && ById(rows)[fused[i].0].chunkId == fused[i].0
    ensures forall c :: c in ById(rows).Values ==> c in rows
  {
    forall i | 0 <= i < |fused|
      ensures fused[i].0 in ById(rows) && ById(rows)[fused[i].0].chunkId == fused[i].0
    {
      ByIdIsFirst(rows, fused[i].0);
      ByIdIsSound(rows, fused[i].0);
    }
    forall id | id in ById(rows) ensures ById(rows)[id] in rows {
      ByIdIsSound(rows, id);
    }
  }

  lemma {:induction false} StampedIsCandidate(c: RetrievedChunk, entry: (string, real), rows: seq<RetrievedChunk>,
      vectorIds: seq<string>, textIds: seq<string>, vectorPositions: map<string, nat>, textPositions: map<string, nat>,
      vs: seq<Option<real>>, ts: seq<Option<real>>)
    requires |vs| == |ts| == |rows|
    requires AllCarry(ById(rows), MergedScores(IdsOf(rows), vs), MergedScores(IdsOf(rows), ts))
    requires IsStamped(c, entry, ById(rows), vectorPositions, textPositions)
    requires Lookup(vectorPositions, entry.0) == PositionOf(vectorIds, entry.0)
    requires Lookup(textPositions, entry.0) == PositionOf(textIds, entry.0)
    ensures IsCandidate(c, rows, vectorIds, textIds, vs, ts)
  {
    ByIdIsFirst(rows, entry.0);
    ByIdIsSound(rows, entry.0);
  }

  lemma {:induction false} DistinctIds(chunks: seq<RetrievedChunk>, fused: seq<(string, real)>)
    requires Scoring(chunks) == fused && Distinct(KeysOf(fused))
    ensures Distinct(chunks)
  {
    forall i, j | 0 <= i < j < |chunks| ensures chunks[i] != chunks[j] {
      assert KeysOf(fused)[i] != KeysOf(fused)[j];
      assert Scoring(chunks)[i] == fused[i] && Scoring(chunks)[j] == fused[j];
    }
  }

  /** The second half of the fusion: the chunks in fused order, stamped. */
  method StampAll(rows: seq<RetrievedChunk>, byId: map<string, RetrievedChunk>, vectorIds: seq<string>,
                  textIds: seq<string>, fused: seq<(string, real)>, ghost vs: seq<Option<real>>,
                  ghost ts: seq<Option<real>>)
    returns (ordered: seq<RetrievedChunk>)
    requires |vs| == |ts| == |rows| && byId == ById(rows) && IdsOf(rows) == vectorIds + textIds
    requires AllCarry(byId, MergedScores(IdsOf(rows), vs), MergedScores(IdsOf(rows), ts))
    requires Distinct(KeysOf(fused)) && forall i :: 0 <= i < |fused| ==> fused[i].0 in vectorIds + textIds
    modifies rows
    ensures Scoring(ordered) == fused && Distinct(ordered)
    ensures forall i :: 0 <= i < |ordered| ==> IsCandidate(ordered[i], rows, vectorIds, textIds, vs, ts)
  {
    var vectorPositions := RankPositions(vectorIds);
    var textPositions := RankPositions(textIds);
    FusedIdsHaveChunks(rows, vectorIds + textIds, fused);
    ordered := Stamp(fused, byId, vectorPositions, textPositions,
                     MergedScores(IdsOf(rows), vs), MergedScores(IdsOf(rows), ts));
    DistinctIds(ordered, fused);
    forall i | 0 <= i < |ordered| ensures IsCandidate(ordered[i], rows, vectorIds, textIds, vs, ts) {
      StampedIsCandidate(ordered[i], fused[i], rows, vectorIds, textIds, vectorPositions, textPositions, vs, ts);
    }
  }

  lemma {:induction false} IdsAppend(a: seq<RetrievedChunk>, b: seq<RetrievedChunk>)
    ensures IdsOf(a + b) == IdsOf(a) + IdsOf(b)
  {
  }

  /** The candidates of both branches: every id once, in fused order. The rows are distinct objects, because every row
      of a query result becomes a new chunk. */
  method Fuse(vectorRows: seq<RetrievedChunk>, textRows: seq<RetrievedChunk>, k: int, weightVector: real,
              weightText: real)
    returns (ordered: seq<RetrievedChunk>)
    requires Distinct(vectorRows + textRows)
    modifies vectorRows, textRows
    ensures Distinct(ordered)
    ensures IsFusion([IdsOf(vectorRows), IdsOf(textRows)], [weightVector, weightText], Damping(k), Scoring(ordered))
    ensures forall i :: 0 <= i < |ordered| ==>
      IsCandidate(ordered[i], vectorRows + textRows, IdsOf(vectorRows), IdsOf(textRows),
                  old(VectorScores(vectorRows + textRows)), old(TextScores(vectorRows + textRows)))
  {
    var rows := vectorRows + textRows;
    ghost var vs, ts := VectorScores(rows), TextScores(rows);
    var byId := MergeRows(rows);
    var vectorIds, textIds := IdsOf(vectorRows), IdsOf(textRows);
    var fused := FuseIds(vectorIds, textIds, k, [weightVector, weightText]);
    IdsAppend(vectorRows, textRows);
    ordered := StampAll(rows, byId, vectorIds, textIds, fused, vs, ts);
  }

  // ---------------------------------------------------------------- consensus first

  predicate Shared(vectorIds: seq<string>, textIds: seq<string>, id: string) {
    id in vectorIds && id in textIds
  }

  /** With equal positive weights and lists of at most k + 1 rows, every chunk that both branches found comes before
      every chunk that only one of them found. */
  lemma {:induction false} ConsensusComesFirst(vectorIds: seq<string>, textIds: seq<string>, w: real, damping: nat,
                                               fused: seq<(string, real)>, i: nat, j: nat)
    requires damping >= 1 && w > 0.0 && IsFusion([vectorIds, textIds], [w, w], damping, fused)
    requires |vectorIds| <= damping + 1 && |textIds| <= damping + 1
    requires i < j < |fused| && Shared(vectorIds, textIds, fused[j].0)
    ensures Shared(vectorIds, textIds, fused[i].0)
  {
    var x, y := fused[j].0, fused[i].0;
    FusedIdsAreRows(vectorIds, textIds, [w, w], damping, fused);
    assert Outranks([vectorIds, textIds], [w, w], damping, y, x);
    assert KeysOf(fused)[i] in KeysOf(fused);
    if !Shared(vectorIds, textIds, y) {
      PositionsAgree(vectorIds, x);
      PositionsAgree(textIds, x);
      ConsensusWins(vectorIds, textIds, w, damping, x, y);
    }
  }

  // ---------------------------------------------------------------- reranking

  type Scored = (int, real)   // what the provider returns: an index into the candidates and a score

  function InRange(results: seq<Scored>, n: nat): (indexes: seq<nat>)
    ensures forall k :: 0 <= k < |indexes| ==> indexes[k] < n
  {
    if results == [] then []
    else
      var last := results[|results| - 1].0;
      InRange(results[..|results| - 1], n) + if 0 <= last < n then [last] else []
  }

  function Picked<T>(candidates: seq<T>, indexes: seq<nat>): (r: seq<T>)
    requires forall k :: 0 <= k < |indexes| ==> indexes[k] < |candidates|
    ensures |r| == |indexes| && forall k :: 0 <= k < |r| ==> r[k] == candidates[indexes[k]]
  {
    seq(|indexes|, k requires 0 <= k < |indexes| => candidates[indexes[k]])
  }

  /** Does the provider name this candidate? */
  ghost predicate Named(results: seq<Scored>, j: int) {
    exists k: nat :: k < |results| && results[k].0 == j
  }

  /** Entry k is the last one to name this candidate. */
  ghost predicate LastNaming(results: seq<Scored>, k: nat, j: int) {
    k < |results| && results[k].0 == j && forall l :: k < l < |results| ==> results[l].0 != j
  }

  /** The candidates the provider left out, in their old order. */
  function Dropped<T(==)>(candidates: seq<T>, chosen: seq<T>): (r: seq<T>)
    ensures forall c :: c in candidates ==> (c in r <==> c !in chosen)
    ensures forall c :: c in r ==> c in candidates
  {
    if candidates == [] then []
    else
      var last := candidates[|candidates| - 1];
      Dropped(candidates[..|candidates| - 1], chosen) + if last in chosen then [] else [last]
  }

  /** None: the provider failed. */
  function Reranked<T(==)>(candidates: seq<T>, response: Option<seq<Scored>>): seq<T> {
    match response
    case None => candidates
    case Some(results) =>
      var chosen := Picked(candidates, InRange(results, |candidates|));
      if chosen == [] then candidates else chosen + Dropped(candidates, chosen)
  }

  /** Reranking never loses a candidate and never invents one, whatever indexes the provider returns. */
  lemma {:induction false} RerankKeepsEveryCandidate<T(!new)>(candidates: seq<T>, response: Option<seq<Scored>>)
    ensures forall c :: c in candidates <==> c in Reranked(candidates, response)
  {
    forall c ensures c in candidates <==> c in Reranked(candidates, response) {
      if response.Some? {
        var indexes := InRange(response.value, |candidates|);
        var chosen := Picked(candidates, indexes);
        if c in chosen {
          var k :| 0 <= k < |chosen| && chosen[k] == c;
          assert indexes[k] in indexes;
        }
      }
    }
  }

  lemma {:induction false} DistinctCounts<T(!new)>(s: seq<T>)
    ensures Distinct(s) <==> forall x :: multiset(s)[x] <= 1
  {
    if s != [] {
      var n := |s| - 1;
      var init, last := s[..n], s[n];
      DistinctCounts(init);
      assert s == init + [last];
      if last in init {
        var i :| 0 <= i < n && init[i] == last;
        assert s[i] == s[n];
        assert multiset(init)[last] >= 1;
        assert multiset(s)[last] >= 2;
      } else {
        DistinctPlusOne(init, last);
        assert multiset(init)[last] == 0;
        assert forall x :: multiset(s)[x] == multiset(init)[x] + multiset{last}[x];
      }
    }
  }

  lemma {:induction false} DroppedDistinct<T(!new)>(candidates: seq<T>, chosen: seq<T>)
    requires Distinct(candidates)
    ensures Distinct(Dropped(candidates, chosen))
  {
    if candidates != [] {
      var n := |candidates| - 1;
      DroppedDistinct(candidates[..n], chosen);
      assert candidates == candidates[..n] + [candidates[n]];
      assert candidates[n] !in candidates[..n];
      DistinctPlusOne(Dropped(candidates[..n], chosen), candidates[n]);
    }
  }

  lemma {:induction false} PickedDistinct<T(!new)>(candidates: seq<T>, indexes: seq<nat>)
    requires Distinct(candidates) && forall k :: 0 <= k < |indexes| ==> indexes[k] < |candidates|
    ensures Distinct(Picked(candidates, indexes)) <==> Distinct(indexes)
  {
    var picked := Picked(candidates, indexes);
    forall i, j | 0 <= i < j < |indexes| ensures picked[i] == picked[j] <==> indexes[i] == indexes[j] {
      assert indexes[i] in indexes && indexes[j] in indexes;
    }
    if !Distinct(indexes) {
      var i, j :| 0 <= i < j < |indexes| && indexes[i] == indexes[j];
      assert picked[i] == picked[j];
    }
  }

  lemma {:induction false} DistinctUnion<T(!new)>(a: seq<T>, b: seq<T>)
    requires Distinct(b) && forall x :: x in b ==> x !in a
    ensures Distinct(a + b) <==> Distinct(a)
  {
    DistinctCounts(a);
    DistinctCounts(b);
    DistinctCounts(a + b);
    assert forall x :: multiset(a + b)[x] == multiset(a)[x] + multiset(b)[x];
    assert forall x :: x in b ==> multiset(a)[x] == 0;
    assert forall x :: x !in b ==> multiset(b)[x] == 0;
  }

  lemma {:induction false} SameCounts<T(!new)>(a: seq<T>, b: seq<T>)
    requires Distinct(a) && forall x :: x in a <==> x in b
    ensures multiset(a) == multiset(b) <==> Distinct(b)
  {
    DistinctCounts(a);
    DistinctCounts(b);
    assert forall x :: x in a <==> multiset(a)[x] >= 1;
    assert forall x :: x in b <==> multiset(b)[x] >= 1;
    if Distinct(b) {
      assert forall x :: multiset(a)[x] == multiset(b)[x];
    }
  }

  /** It is a permutation exactly when the usable indexes of the provider are distinct: a repeated index repeats its
      candidate. */
  lemma {:induction false} RerankPermutesExactly<T(!new)>(candidates: seq<T>, results: seq<Scored>)
    requires Distinct(candidates)
    ensures multiset(Reranked(candidates, Some(results))) == multiset(candidates) <==>
      Distinct(InRange(results, |candidates|))
  {
    var indexes := InRange(results, |candidates|);
    var chosen := Picked(candidates, indexes);
    RerankKeepsEveryCandidate(candidates, Some(results));
    SameCounts(candidates, Reranked(candidates, Some(results)));
    PickedDistinct(candidates, indexes);
    if chosen != [] {
      DroppedDistinct(candidates, chosen);
      DistinctUnion(chosen, Dropped(candidates, chosen));
    }
  }

  /** The score the provider last gave to a candidate, if it named it at all. */
  function LastScore(results: seq<Scored>, index: nat): (score: Option<real>)
    ensures score.None? <==> !Named(results, index)
    ensures score.Some? ==> exists k: nat :: LastNaming(results, k, index) && results[k].1 == score.value
  {
    if results == [] then None
    else
      var init, last := results[..|results| - 1], results[|results| - 1];
      var earlier := LastScore(init, index);
      assert results == init + [last];
      assert last.0 == index ==> LastNaming(results, |init|, index);
      assert forall k: nat :: last.0 != index && LastNaming(init, k, index) ==> LastNaming(results, k, index);
      if last.0 == index then Some(last.1) else earlier
  }

  // ---------------------------------------------------------------- the order after reranking

  /** Is it the index of a candidate? */
  function Usable(n: nat): Scored -> bool {
    (r: Scored) => 0 <= r.0 < n
  }

  function IndexOf(): Scored -> int {
    (r: Scored) => r.0
  }

  /** How many of the first candidates the provider leaves out. */
  ghost function LeftOut(results: seq<Scored>, j: nat): (n: nat)
    ensures n <= j
  {
    if j == 0 then 0 else LeftOut(results, j - 1) + if Named(results, j - 1) then 0 else 1
  }

  /** Entry i of the provider's answer, if it is usable, puts its candidate behind those of the usable entries before
      it. */
  ghost predicate PlacesNamed<T>(candidates: seq<T>, results: seq<Scored>, result: seq<T>, i: nat)
    requires i < |results|
  {
    var k := Passing(Usable(|candidates|), results[..i]);
    0 <= results[i].0 < |candidates| ==> k < |result| && result[k] == candidates[results[i].0]
  }

  /** Candidate j, if the provider leaves it out, stands behind all that are named and all before it that are not. */
  ghost predicate PlacesUnnamed<T>(candidates: seq<T>, results: seq<Scored>, result: seq<T>, j: nat)
    requires j < |candidates|
  {
    var k := Passing(Usable(|candidates|), results) + LeftOut(results, j);
    !Named(results, j) ==> k < |result| && result[k] == candidates[j]
  }

  /** First what the provider names, in its order; behind it the candidates it leaves out, in theirs; and nothing
      else. */
  ghost predicate InProviderOrder<T>(candidates: seq<T>, results: seq<Scored>, result: seq<T>) {
    |result| == Passing(Usable(|candidates|), results) + LeftOut(results, |candidates|) &&
    (forall i: nat :: i < |results| ==> PlacesNamed(candidates, results, result, i)) &&
    forall j: nat :: j < |candidates| ==> PlacesUnnamed(candidates, results, result, j)
  }

  lemma {:induction false} InRangeSelects(results: seq<Scored>, n: nat)
    ensures Selects(Usable(n), IndexOf(), results, InRange(results, n))
  {
    if results != [] {
      var init, last := results[..|results| - 1], results[|results| - 1];
      InRangeSelects(init, n);
      SelectsOneMore(Usable(n), IndexOf(), init, InRange(init, n), last);
      assert results == init + [last];
      assert InRange(init, n) + [] == InRange(init, n);
    }
  }

  lemma {:induction false} ChosenAreNamed<T>(candidates: seq<T>, results: seq<Scored>, chosen: seq<T>, j: nat)
    requires Distinct(candidates) && j < |candidates| && chosen == Picked(candidates, InRange(results, |candidates|))
    ensures candidates[j] in chosen <==> Named(results, j)
  {
    var n, indexes := |candidates|, InRange(results, |candidates|);
    InRangeSelects(results, n);
    if candidates[j] in chosen {
      var k :| 0 <= k < |chosen| && chosen[k] == candidates[j];
      var i := TakenBy(Usable(n), results, k);
      assert Lands(Usable(n), IndexOf(), results, i, indexes);
    }
    if Named(results, j) {
      var i: nat :| i < |results| && results[i].0 == j;
      assert Lands(Usable(n), IndexOf(), results, i, indexes);
      assert chosen[Passing(Usable(n), results[..i])] == candidates[j];
    }
  }

  /** Candidate j, if it is left out, has its place in this list. */
  ghost predicate Stands<T>(candidates: seq<T>, results: seq<Scored>, dropped: seq<T>, j: nat)
    requires j < |candidates|
  {
    !Named(results, j) ==> LeftOut(results, j) < |dropped| && dropped[LeftOut(results, j)] == candidates[j]
  }

  /** These are the ones left out of the first m candidates. */
  ghost predicate AreLeftOut<T>(candidates: seq<T>, results: seq<Scored>, dropped: seq<T>, m: nat)
    requires m <= |candidates|
  {
    |dropped| == LeftOut(results, m) && forall j: nat :: j < m ==> Stands(candidates, results, dropped, j)
  }

  lemma {:induction false} OneMoreLeftOut<T>(candidates: seq<T>, results: seq<Scored>, dropped: seq<T>, m: nat)
    requires m < |candidates| && AreLeftOut(candidates, results, dropped, m)
    ensures AreLeftOut(candidates, results, if Named(results, m) then dropped else dropped + [candidates[m]], m + 1)
  {
    var more := if Named(results, m) then dropped else dropped + [candidates[m]];
    forall j: nat | j < m + 1 ensures Stands(candidates, results, more, j) {
      if j < m {
        assert Stands(candidates, results, dropped, j);
      }
    }
  }

  lemma {:induction false} DroppedOneMore<T>(candidates: seq<T>, chosen: seq<T>, m: nat)
    requires m < |candidates|
    ensures Dropped(candidates[..m + 1], chosen) ==
      if candidates[m] in chosen then Dropped(candidates[..m], chosen)
      else Dropped(candidates[..m], chosen) + [candidates[m]]
  {
    assert candidates[..m + 1][..m] == candidates[..m];
  }

  lemma {:induction false} DroppedAt<T>(candidates: seq<T>, results: seq<Scored>, chosen: seq<T>, m: nat)
    requires Distinct(candidates) && chosen == Picked(candidates, InRange(results, |candidates|))
    requires m <= |candidates|
    ensures AreLeftOut(candidates, results, Dropped(candidates[..m], chosen), m)
  {
    if m > 0 {
      DroppedAt(candidates, results, chosen, m - 1);
      ChosenAreNamed(candidates, results, chosen, m - 1);
      OneMoreLeftOut(candidates, results, Dropped(candidates[..m - 1], chosen), m - 1);
      DroppedOneMore(candidates, chosen, m - 1);
    }
  }

  lemma {:induction false} BothParts<T>(candidates: seq<T>, results: seq<Scored>, chosen: seq<T>, dropped: seq<T>)
    requires |chosen| == Passing(Usable(|candidates|), results)
    requires AreLeftOut(candidates, results, dropped, |candidates|)
    requires forall i: nat :: i < |results| ==> PlacesNamed(candidates, results, chosen, i)
    ensures InProviderOrder(candidates, results, chosen + dropped)
  {
    var result := chosen + dropped;
    forall i: nat | i < |results| ensures PlacesNamed(candidates, results, result, i) {
      assert PlacesNamed(candidates, results, chosen, i);
    }
    forall j: nat | j < |candidates| ensures PlacesUnnamed(candidates, results, result, j) {
      assert Stands(candidates, results, dropped, j);
    }
  }

  lemma {:induction false} PickedAt<T>(candidates: seq<T>, results: seq<Scored>, chosen: seq<T>, i: nat)
    requires i < |results| && chosen == Picked(candidates, InRange(results, |candidates|))
    ensures PlacesNamed(candidates, results, chosen, i)
  {
    InRangeSelects(results, |candidates|);
    assert Lands(Usable(|candidates|), IndexOf(), results, i, InRange(results, |candidates|));
  }

  lemma {:induction false} NoneChosen<T>(candidates: seq<T>)
    ensures Dropped(candidates, []) == candidates
  {
    if candidates != [] {
      NoneChosen(candidates[..|candidates| - 1]);
    }
  }

  /** Reranking puts the candidates in the provider's order. */
  lemma {:induction false} RerankedInOrder<T>(candidates: seq<T>, results: seq<Scored>)
    requires Distinct(candidates)
    ensures InProviderOrder(candidates, results, Reranked(candidates, Some(results)))
  {
    var n := |candidates|;
    var chosen := Picked(candidates, InRange(results, n));
    InRangeSelects(results, n);
    DroppedAt(candidates, results, chosen, n);
    assert candidates[..n] == candidates;
    forall i: nat | i < |results| ensures PlacesNamed(candidates, results, chosen, i) {
      PickedAt(candidates, results, chosen, i);
    }
    BothParts(candidates, results, chosen, Dropped(candidates, chosen));
    if chosen == [] {
      NoneChosen(candidates);
      assert [] + candidates == candidates;
    }
  }

  method Rerank(candidates: seq<RetrievedChunk>, response: Option<seq<Scored>>) returns (result: seq<RetrievedChunk>)
    requires Distinct(candidates)
    modifies candidates
    ensures result == Reranked(candidates, response)
    ensures if response.Some? then InProviderOrder(candidates, response.value, result) else result == candidates
    ensures forall j :: 0 <= j < |candidates| ==>
      var c := candidates[j];
      match (if response.Some? then LastScore(response.value, j) else None)
      case None => c.score == old(c.score) && c.rerankScore == old(c.rerankScore)
      case Some(score) => c.score == score && c.rerankScore == Some(score)
  {
    if response.None? {
      return candidates;
    }
    var results := response.value;
    var reranked: seq<RetrievedChunk> := [];
    for i := 0 to |results|
      invariant reranked == Picked(candidates, InRange(results[..i], |candidates|))
      invariant forall j :: 0 <= j < |candidates| ==>
        var c := candidates[j];
        match LastScore(results[..i], j)
        case None => c.score == old(c.score) && c.rerankScore == old(c.rerankScore)
        case Some(score) => c.score == score && c.rerankScore == Some(score)
    {
      var (index, score) := results[i];
      assert results[..i + 1][..i] == results[..i];
      if index < 0 || index >= |candidates| {
        continue;
      }
      var chunk := candidates[index];
      chunk.rerankScore := Some(score);
      chunk.score := score;
      reranked := reranked + [chunk];
    }
    assert results[..|results|] == results;
    result := if reranked == [] then candidates else reranked + Dropped(candidates, reranked);
    RerankedInOrder(candidates, results);
  }
}
