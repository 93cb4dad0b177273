/** What a run of the ingestion promises: every document is accounted for, vectors never end up with the wrong
    document, the batch size is invisible, and a second run has nothing to do. */
module IngestionGuarantees {
  import opened Outcomes
  import opened Ingestion
  import opened Selections

  // ---------------------------------------------------------------- every document is accounted for

  function Handled(s: Stats): nat {
    s.ingested + s.skipped + s.failed
  }

  /** What one batch may do to the counters. */
  ghost predicate Counts(before: Stats, after: Stats, documents: nat) {
    Handled(after) == Handled(before) + documents && after.skipped == before.skipped &&
    after.documents == before.documents && after.pruned == before.pruned &&
    after.embedded - before.embedded <= after.chunks - before.chunks
  }

  lemma {:induction false} EmbeddedAtMost(vectors: seq<Option<Vector>>)
    ensures CountEmbedded(vectors) <= |vectors|
  {
    if vectors != [] {
      EmbeddedAtMost(vectors[..|vectors| - 1]);
    }
  }

  lemma {:induction false} PersistCounts(env: Env, c: Corpus, batch: seq<Job>, vectors: seq<Option<Vector>>)
    requires |vectors| == |Texts(batch)|
    ensures Counts(c.stats, PersistAll(env, c, batch, vectors).stats, |batch|)
  {
    if batch != [] {
      var n := |batch| - 1;
      var start := |Texts(batch[..n])|;
      PersistCounts(env, c, batch[..n], vectors[..start]);
      EmbeddedAtMost(vectors[start..]);
    }
  }

  lemma {:induction false} FlushCounts(env: Env, c: Corpus, batch: seq<Job>)
    ensures Counts(c.stats, FlushBatch(env, c, batch).stats, |batch|)
  {
    var texts := Texts(batch);
    match env.embed(texts) {
      case EmbedFailed =>
      case Embedded(vectors, tokens) =>
        var charged := c.(stats := c.stats.(tokens := c.stats.tokens + tokens));
        PersistCounts(env, charged, batch, Fitted(vectors, |texts|));
    }
  }

  lemma {:induction false} LoopCounts(env: Env, flushSize: nat, stored: Store, force: bool, p: Progress,
                                      docs: seq<Document>)
    requires p.pending == []
    ensures var q := AllDocuments(env, flushSize, stored, force, p, docs);
      Handled(q.corpus.stats) + |q.pending| == Handled(p.corpus.stats) + |docs| &&
      q.corpus.stats.documents == p.corpus.stats.documents &&
      q.corpus.stats.embedded - p.corpus.stats.embedded <= q.corpus.stats.chunks - p.corpus.stats.chunks
  {
    if docs != [] {
      var n := |docs| - 1;
      LoopCounts(env, flushSize, stored, force, p, docs[..n]);
      var q := AllDocuments(env, flushSize, stored, force, p, docs[..n]);
      if Selected(env, docs[n], stored, force) {
        FlushCounts(env, q.corpus, q.pending + [Job(docs[n], env.split(docs[n]))]);
      }
    }
  }

  /** A source that has been ingested to the end has counted every document exactly once, as ingested, skipped or
      failed, whatever the provider and the database did in between. */
  lemma {:induction false} EveryDocumentCounted(env: Env, flushSize: nat, store: Store, force: bool,
                                                docs: seq<Document>)
    ensures var s := Ingested(env, flushSize, Corpus(store, NO_STATS.(documents := |docs|)), force, docs).stats;
      s.documents == |docs| == s.ingested + s.skipped + s.failed && s.embedded <= s.chunks
  {
    var c := Corpus(store, NO_STATS.(documents := |docs|));
    var q := AllDocuments(env, flushSize, store, force, Progress(c, [], 0), docs);
    LoopCounts(env, flushSize, store, force, Progress(c, [], 0), docs);
    if q.pending != [] {
      FlushCounts(env, q.corpus, q.pending);
    }
  }

  // ---------------------------------------------------------------- a document gets its own vectors

  ghost predicate OwnVector(text: string, vector: Option<Vector>, e: string -> Vector) {
    vector == None || vector == Some(e(text))
  }

  ghost predicate HonestReply(texts: seq<string>, reply: EmbedReply, e: string -> Vector) {
    reply.Embedded? ==>
      forall i :: 0 <= i < |texts| && i < |reply.vectors| ==> OwnVector(texts[i], reply.vectors[i], e)
  }

  /** The provider may fail, fall short or leave entries out, but a vector it does return belongs to its text. */
  ghost predicate Honest(env: Env, e: string -> Vector) {
    forall texts: seq<string> :: HonestReply(texts, env.embed(texts), e)
  }

  ghost predicate OwnVectors(texts: seq<string>, vectors: seq<Option<Vector>>, e: string -> Vector) {
    |vectors| == |texts| && forall i :: 0 <= i < |texts| ==> OwnVector(texts[i], vectors[i], e)
  }

  /** What is stored for a document: all of its chunks in order, each with its own vector or none. */
  ghost predicate StoredFor(env: Env, d: Document, s: Stored, e: string -> Vector) {
    s.checksum == d.checksum && |s.rows| == |env.split(d)| &&
    forall i :: 0 <= i < |s.rows| ==>
                  s.rows[i].chunk == env.split(d)[i] && OwnVector(s.rows[i].chunk, s.rows[i].vector, e)
  }

  ghost predicate EntryFrom(env: Env, before: Store, docs: set<Document>, id: string, s: Stored, e: string -> Vector) {
    (id in before && s == before[id]) || exists d :: d in docs && d.sourceId == id && StoredFor(env, d, s, e)
  }

  /** Every entry is an old one, or belongs to one of these documents. */
  ghost predicate Faithful(env: Env, before: Store, docs: set<Document>, store: Store, e: string -> Vector) {
    forall id :: id in store ==> EntryFrom(env, before, docs, id, store[id], e)
  }

  ghost predicate JobsFrom(env: Env, docs: set<Document>, batch: seq<Job>) {
    forall i :: 0 <= i < |batch| ==> batch[i].document in docs && batch[i].chunks == env.split(batch[i].document)
  }

  lemma {:induction false} PersistedFaithfully(env: Env, before: Store, docs: set<Document>, c: Corpus, job: Job,
                                               vectors: seq<Option<Vector>>, e: string -> Vector)
    requires Faithful(env, before, docs, c.store, e) && job.document in docs && job.chunks == env.split(job.document)
    requires OwnVectors(job.chunks, vectors, e)
    ensures Faithful(env, before, docs, PersistJob(env, c, job, vectors).store, e)
  {
    var d := job.document;
    var s := Stored(d.checksum, ZipRows(job.chunks, vectors));
    assert StoredFor(env, d, s, e);
    assert EntryFrom(env, before, docs, d.sourceId, s, e);
  }

  lemma {:induction false} SplitOwn(texts: seq<string>, a: seq<string>, b: seq<string>, vectors: seq<Option<Vector>>,
                                    e: string -> Vector)
    requires texts == a + b && OwnVectors(texts, vectors, e)
    ensures OwnVectors(a, vectors[..|a|], e) && OwnVectors(b, vectors[|a|..], e)
  {
    forall i | 0 <= i < |a| ensures OwnVector(a[i], vectors[..|a|][i], e) {
      assert texts[i] == a[i];
    }
    forall i | 0 <= i < |b| ensures OwnVector(b[i], vectors[|a|..][i], e) {
      assert texts[|a| + i] == b[i];
    }
  }

  lemma {:induction false} BatchFaithful(env: Env, before: Store, docs: set<Document>, c: Corpus, batch: seq<Job>,
                                         vectors: seq<Option<Vector>>, e: string -> Vector)
    requires Faithful(env, before, docs, c.store, e) && JobsFrom(env, docs, batch)
    requires OwnVectors(Texts(batch), vectors, e)
    ensures Faithful(env, before, docs, PersistAll(env, c, batch, vectors).store, e)
  {
    if batch != [] {
      var n := |batch| - 1;
      var start := |Texts(batch[..n])|;
      SplitOwn(Texts(batch), Texts(batch[..n]), batch[n].chunks, vectors, e);
      BatchFaithful(env, before, docs, c, batch[..n], vectors[..start], e);
      PersistedFaithfully(env, before, docs, PersistAll(env, c, batch[..n], vectors[..start]), batch[n],
                          vectors[start..], e);
    }
  }

  lemma {:induction false} FlushFaithful(env: Env, before: Store, docs: set<Document>, c: Corpus, batch: seq<Job>,
                                         e: string -> Vector)
    requires Honest(env, e) && Faithful(env, before, docs, c.store, e) && JobsFrom(env, docs, batch)
    ensures Faithful(env, before, docs, FlushBatch(env, c, batch).store, e)
  {
    var texts := Texts(batch);
    match env.embed(texts) {
      case EmbedFailed =>
      case Embedded(vectors, tokens) =>
        assert HonestReply(texts, env.embed(texts), e);
        assert OwnVectors(texts, Fitted(vectors, |texts|), e);
        var charged := c.(stats := c.stats.(tokens := c.stats.tokens + tokens));
        BatchFaithful(env, before, docs, charged, batch, Fitted(vectors, |texts|), e);
    }
  }

  lemma {:induction false} LoopFaithful(env: Env, flushSize: nat, stored: Store, force: bool, p: Progress,
                                        docs: seq<Document>, all: set<Document>, e: string -> Vector)
    requires Honest(env, e) && Faithful(env, stored, all, p.corpus.store, e) && JobsFrom(env, all, p.pending)
    requires forall d :: d in docs ==> d in all
    ensures var q := AllDocuments(env, flushSize, stored, force, p, docs);
      Faithful(env, stored, all, q.corpus.store, e) && JobsFrom(env, all, q.pending)
  {
    if docs != [] {
      var n := |docs| - 1;
      LoopFaithful(env, flushSize, stored, force, p, docs[..n], all, e);
      var q := AllDocuments(env, flushSize, stored, force, p, docs[..n]);
      assert docs[n] in docs;
      if Selected(env, docs[n], stored, force) {
        FlushFaithful(env, stored, all, q.corpus, q.pending + [Job(docs[n], env.split(docs[n]))], e);
      }
    }
  }

  /** Whatever fails on the way, no document ever gets a vector of another one: every entry of the final store was there
      before, or holds all the chunks of one of the documents, each with its own vector or with none. */
  lemma {:induction false} VectorsStayWithTheirDocument(env: Env, flushSize: nat, c: Corpus, force: bool,
                                                        docs: seq<Document>, e: string -> Vector)
    requires Honest(env, e)
    ensures Faithful(env, c.store, (set d | d in docs), Ingested(env, flushSize, c, force, docs).store, e)
  {
    var all := set d | d in docs;
    var q := AllDocuments(env, flushSize, c.store, force, Progress(c, [], 0), docs);
    LoopFaithful(env, flushSize, c.store, force, Progress(c, [], 0), docs, all, e);
    if q.pending != [] {
      FlushFaithful(env, c.store, all, q.corpus, q.pending, e);
    }
  }

  // ---------------------------------------------------------------- without failures

  function VectorsOf(e: string -> Vector, texts: seq<string>): (r: seq<Option<Vector>>)
    ensures |r| == |texts| && forall i :: 0 <= i < |r| ==> r[i] == Some(e(texts[i]))
  {
    seq(|texts|, i requires 0 <= i < |texts| => Some(e(texts[i])))
  }

  /** No call fails, and the provider answers text by text. */
  ghost predicate Lossless(env: Env, e: string -> Vector) {
    (forall texts: seq<string> :: env.embed(texts).Embedded? && env.embed(texts).vectors == VectorsOf(e, texts)) &&
    forall d :: !env.persistFails(d)
  }

  function EntryOf(env: Env, d: Document, e: string -> Vector): Stored {
    Stored(d.checksum, ZipRows(env.split(d), VectorsOf(e, env.split(d))))
  }

  /** The documents stored one after the other, without any batching. */
  function PutAll(env: Env, store: Store, docs: seq<Document>, e: string -> Vector): Store {
    if docs == [] then store
    else
      var n := |docs| - 1;
      PutAll(env, store, docs[..n], e)[docs[n].sourceId := EntryOf(env, docs[n], e)]
  }

  function SelectedOf(env: Env, docs: seq<Document>, stored: Store, force: bool): (r: seq<Document>)
    ensures forall d :: d in r <==> d in docs && Selected(env, d, stored, force)
  {
    if docs == [] then []
    else
      var n := |docs| - 1;
      assert docs == docs[..n] + [docs[n]];
      SelectedOf(env, docs[..n], stored, force) + if Selected(env, docs[n], stored, force) then [docs[n]] else []
  }

  function DocumentsOf(batch: seq<Job>): seq<Document> {
    if batch == [] then [] else DocumentsOf(batch[..|batch| - 1]) + [batch[|batch| - 1].document]
  }

  ghost predicate OwnChunks(env: Env, batch: seq<Job>) {
    forall i :: 0 <= i < |batch| ==> batch[i].chunks == env.split(batch[i].document)
  }

  lemma {:induction false} PutMore(env: Env, store: Store, a: seq<Document>, d: Document, e: string -> Vector)
    ensures PutAll(env, store, a + [d], e) == PutAll(env, store, a, e)[d.sourceId := EntryOf(env, d, e)]
  {
    assert (a + [d])[..|a|] == a;
  }

  lemma {:induction false} VectorsSplit(e: string -> Vector, a: seq<string>, b: seq<string>)
    ensures VectorsOf(e, a + b)[..|a|] == VectorsOf(e, a) && VectorsOf(e, a + b)[|a|..] == VectorsOf(e, b)
  {
  }

  lemma {:induction false} PersistedLossless(env: Env, c: Corpus, batch: seq<Job>, e: string -> Vector)
    requires Lossless(env, e) && OwnChunks(env, batch)
    ensures var r := PersistAll(env, c, batch, VectorsOf(e, Texts(batch)));
      r.store == PutAll(env, c.store, DocumentsOf(batch), e) && r.stats.failed == c.stats.failed
  {
    if batch != [] {
      var n := |batch| - 1;
      var before := Texts(batch[..n]);
      VectorsSplit(e, before, batch[n].chunks);
      PersistedLossless(env, c, batch[..n], e);
      PutMore(env, c.store, DocumentsOf(batch[..n]), batch[n].document, e);
    }
  }

  lemma {:induction false} FlushedLossless(env: Env, c: Corpus, batch: seq<Job>, e: string -> Vector)
    requires Lossless(env, e) && OwnChunks(env, batch)
    ensures FlushBatch(env, c, batch).store == PutAll(env, c.store, DocumentsOf(batch), e)
    ensures FlushBatch(env, c, batch).stats.failed == c.stats.failed
  {
    var texts := Texts(batch);
    var reply := env.embed(texts);
    var charged := c.(stats := c.stats.(tokens := c.stats.tokens + reply.tokens));
    assert Fitted(reply.vectors, |texts|) == VectorsOf(e, texts);
    PersistedLossless(env, charged, batch, e);
  }

  /** Queueing one more document, with or without a flush, adds it to what is stored or held. */
  lemma {:induction false} QueueLossless(env: Env, flushSize: nat, stored: Store, force: bool, q: Progress, d: Document,
                                         e: string -> Vector)
    requires Lossless(env, e) && OwnChunks(env, q.pending) && Selected(env, d, stored, force)
    ensures var r := NextDocument(env, flushSize, stored, force, q, d);
      OwnChunks(env, r.pending) && r.corpus.stats.failed == q.corpus.stats.failed &&
      PutAll(env, r.corpus.store, DocumentsOf(r.pending), e) ==
      PutAll(env, q.corpus.store, DocumentsOf(q.pending), e)[d.sourceId := EntryOf(env, d, e)]
  {
    var pending := q.pending + [Job(d, env.split(d))];
    assert pending[..|q.pending|] == q.pending;
    assert DocumentsOf(pending) == DocumentsOf(q.pending) + [d];
    FlushedLossless(env, q.corpus, pending, e);
    PutMore(env, q.corpus.store, DocumentsOf(q.pending), d, e);
  }

  lemma {:induction false} SelectOneMore(env: Env, docs: seq<Document>, stored: Store, force: bool)
    requires docs != []
    ensures var n := |docs| - 1;
      SelectedOf(env, docs, stored, force) ==
      if Selected(env, docs[n], stored, force) then SelectedOf(env, docs[..n], stored, force) + [docs[n]]
      else SelectedOf(env, docs[..n], stored, force)
  {
  }

  /** The loop has stored, or still holds, the documents selected so far. */
  lemma {:induction false} LoopLossless(env: Env, flushSize: nat, stored: Store, force: bool, c: Corpus,
                                        docs: seq<Document>, e: string -> Vector)
    requires Lossless(env, e)
    ensures var q := AllDocuments(env, flushSize, stored, force, Progress(c, [], 0), docs);
      OwnChunks(env, q.pending) && q.corpus.stats.failed == c.stats.failed &&
      PutAll(env, q.corpus.store, DocumentsOf(q.pending), e) ==
      PutAll(env, c.store, SelectedOf(env, docs, stored, force), e)
  {
    if docs != [] {
      var n := |docs| - 1;
      LoopLossless(env, flushSize, stored, force, c, docs[..n], e);
      SelectOneMore(env, docs, stored, force);
      var q := AllDocuments(env, flushSize, stored, force, Progress(c, [], 0), docs[..n]);
      if Selected(env, docs[n], stored, force) {
        QueueLossless(env, flushSize, stored, force, q, docs[n], e);
        PutMore(env, c.store, SelectedOf(env, docs[..n], stored, force), docs[n], e);
      }
    }
  }

  lemma {:induction false} LoopSkips(env: Env, flushSize: nat, stored: Store, force: bool, c: Corpus,
                                     docs: seq<Document>)
    ensures var q := AllDocuments(env, flushSize, stored, force, Progress(c, [], 0), docs);
      q.corpus.stats.skipped + |SelectedOf(env, docs, stored, force)| == c.stats.skipped + |docs|
  {
    if docs != [] {
      var n := |docs| - 1;
      LoopSkips(env, flushSize, stored, force, c, docs[..n]);
      SelectOneMore(env, docs, stored, force);
      var q := AllDocuments(env, flushSize, stored, force, Progress(c, [], 0), docs[..n]);
      if Selected(env, docs[n], stored, force) {
        FlushCounts(env, q.corpus, q.pending + [Job(docs[n], env.split(docs[n]))]);
      }
    }
  }

  /** Batching is invisible: without failures the final store is the one that storing the selected documents one by one
      would leave, whatever the batch size; each of them is counted as ingested and none as failed. */
  lemma {:induction false} BatchingIsInvisible(env: Env, flushSize: nat, c: Corpus, force: bool, docs: seq<Document>,
                                               e: string -> Vector)
    requires Lossless(env, e)
    ensures var r := Ingested(env, flushSize, c, force, docs);
      var selected := SelectedOf(env, docs, c.store, force);
      r.store == PutAll(env, c.store, selected, e) && r.stats.failed == c.stats.failed &&
      r.stats.ingested == c.stats.ingested + |selected|
  {
    var q := AllDocuments(env, flushSize, c.store, force, Progress(c, [], 0), docs);
    LoopLossless(env, flushSize, c.store, force, c, docs, e);
    LoopCounts(env, flushSize, c.store, force, Progress(c, [], 0), docs);
    LoopSkips(env, flushSize, c.store, force, c, docs);
    if q.pending != [] {
      FlushedLossless(env, q.corpus, q.pending, e);
      FlushCounts(env, q.corpus, q.pending);
    }
  }

  // ---------------------------------------------------------------- a second run

  /** Documents with the same id that can be ingested at all agree on their content. */
  ghost predicate IdsAgree(env: Env, docs: seq<Document>) {
    forall a, b :: a in docs && b in docs && Ingestible(env, a) && Ingestible(env, b) && a.sourceId == b.sourceId ==>
      a.checksum == b.checksum
  }

  /** An entry after a run is the old one if no document was selected for it, and one of those documents otherwise. */
  lemma {:induction false} PutEntry(env: Env, store: Store, docs: seq<Document>, e: string -> Vector, id: string)
    ensures var after := PutAll(env, store, docs, e);
      (id in after && exists d :: d in docs && d.sourceId == id && after[id] == EntryOf(env, d, e)) ||
      ((forall d :: d in docs ==> d.sourceId != id) && (id in after <==> id in store) &&
       (id in after ==> after[id] == store[id]))
  {
    if docs != [] {
      var n := |docs| - 1;
      assert docs == docs[..n] + [docs[n]];
      PutEntry(env, store, docs[..n], e, id);
      assert docs[n] in docs;
    }
  }

  lemma {:induction false} UnchangedAfterRun(env: Env, store: Store, force: bool, docs: seq<Document>,
                                             e: string -> Vector, d: Document)
    requires IdsAgree(env, docs) && d in docs && Ingestible(env, d)
    ensures Unchanged(d, PutAll(env, store, SelectedOf(env, docs, store, force), e), false)
  {
    var selected := SelectedOf(env, docs, store, force);
    PutEntry(env, store, selected, e, d.sourceId);
    var after := PutAll(env, store, selected, e);
    if x :|
      x in selected && x.sourceId == d.sourceId && d.sourceId in after && after[d.sourceId] == EntryOf(env, x, e) {
      assert x in docs && Ingestible(env, x);
    } else {
      assert d !in selected;
    }
  }

  /** Running again, without force, on the same documents ingests nothing and leaves the store as it is - exactly when
      ingestible documents with the same id have the same checksum. */
  lemma {:induction false} SecondRunIsIdle(env: Env, flushSize: nat, store: Store, force: bool, docs: seq<Document>,
                                           e: string -> Vector)
    requires Lossless(env, e)
    ensures var first := Ingested(env, flushSize, Corpus(store, NO_STATS), force, docs).store;
      var second := Ingested(env, flushSize, Corpus(first, NO_STATS), false, docs);
      (second.stats.ingested == 0 <==> IdsAgree(env, docs)) && (IdsAgree(env, docs) ==> second.store == first)
  {
    var first := Ingested(env, flushSize, Corpus(store, NO_STATS), force, docs).store;
    BatchingIsInvisible(env, flushSize, Corpus(store, NO_STATS), force, docs, e);
    BatchingIsInvisible(env, flushSize, Corpus(first, NO_STATS), false, docs, e);
    var again := SelectedOf(env, docs, first, false);
    assert again != [] ==> again[0] in again;
    if IdsAgree(env, docs) {
      forall d | d in docs && Ingestible(env, d) ensures !Selected(env, d, first, false) {
        UnchangedAfterRun(env, store, force, docs, e, d);
      }
      assert forall d :: d !in again;
    }
    if again == [] {
      forall a, b | a in docs && b in docs && Ingestible(env, a) && Ingestible(env, b) && a.sourceId == b.sourceId
        ensures a.checksum == b.checksum
      {
        assert a !in again && b !in again;
      }
    }
  }

  // ---------------------------------------------------------------- a run without failures ingests all the rest

  lemma {:induction false} SkippedOrSelected(env: Env, docs: seq<Document>, stored: Store, force: bool)
    ensures |SelectedOf(env, docs, stored, force)| + Passing(Skips(env, stored, force), docs) == |docs|
  {
    if docs != [] {
      SkippedOrSelected(env, docs[..|docs| - 1], stored, force);
      SelectOneMore(env, docs, stored, force);
    }
  }

  /** The store holds the content of a document of this id. */
  ghost predicate Holds(env: Env, docs: seq<Document>, store: Store, id: string, e: string -> Vector) {
    id in store && exists x :: x in docs && x.sourceId == id && store[id] == EntryOf(env, x, e)
  }

  /** Without failures every document that is not skipped is ingested, and its id has the content of such a document;
      with force, none is skipped but those that are empty or have no chunks. */
  lemma {:induction false} IngestsTheRest(env: Env, flushSize: nat, store: Store, force: bool, docs: seq<Document>,
                                          e: string -> Vector)
    requires Lossless(env, e)
    ensures var r := Ingested(env, flushSize, Corpus(store, NO_STATS), force, docs);
      r.stats.ingested + Passing(Skips(env, store, force), docs) == |docs| &&
      forall d :: d in docs && !Skips(env, store, force)(d) ==> Holds(env, docs, r.store, d.sourceId, e)
  {
    var r := Ingested(env, flushSize, Corpus(store, NO_STATS), force, docs);
    BatchingIsInvisible(env, flushSize, Corpus(store, NO_STATS), force, docs, e);
    SkippedOrSelected(env, docs, store, force);
    var selected := SelectedOf(env, docs, store, force);
    forall d | d in docs && !Skips(env, store, force)(d) ensures Holds(env, docs, r.store, d.sourceId, e) {
      assert d in selected;
      PutEntry(env, store, selected, e, d.sourceId);
    }
  }

  // ---------------------------------------------------------------- totals of a run

  function Plus(t: Stats, s: Stats): Stats {
    Stats(t.documents + s.documents, t.ingested + s.ingested, t.skipped + s.skipped, t.failed + s.failed,
          t.pruned + s.pruned, t.chunks + s.chunks, t.embedded + s.embedded, t.tokens + s.tokens)
  }

  function SumOf(sources: seq<Stats>): Stats {
    if sources == [] then NO_STATS else Plus(SumOf(sources[..|sources| - 1]), sources[|sources| - 1])
  }

  method Totals(sources: seq<Stats>) returns (totals: Stats)
    ensures totals == SumOf(sources)
  {
    totals := NO_STATS;
    for i := 0 to |sources|
      invariant totals == SumOf(sources[..i])
    {
      assert sources[..i + 1][..i] == sources[..i];
      totals := Plus(totals, sources[i]);
    }
    assert sources[..|sources|] == sources;
  }

  /** The documents of a run that its totals do not account for are exactly those of the sources that were given up. */
  lemma {:induction false} TotalsAccount(sources: seq<Stats>)
    requires forall i :: 0 <= i < |sources| ==> Handled(sources[i]) <= sources[i].documents
    ensures Handled(SumOf(sources)) <= SumOf(sources).documents
    ensures Handled(SumOf(sources)) == SumOf(sources).documents <==>
      forall i :: 0 <= i < |sources| ==> Handled(sources[i]) == sources[i].documents
  {
    if sources != [] {
      var n := |sources| - 1;
      TotalsAccount(sources[..n]);
      assert forall i :: 0 <= i < n ==> sources[..n][i] == sources[i];
    }
  }
}
