/** Loading a corpus into the vector store: documents are skipped, chunked, embedded in batches that cross document
    boundaries, and stored one by one. */
module Ingestion {
  import opened Outcomes
  import opened Selections
  import opened Sets

  type Vector = seq<real>

  datatype Document = Document(sourceId: string, checksum: string, text: string)

  /** A chunk with its embedding, as it is written. */
  datatype Row = Row(chunk: string, vector: Option<Vector>)

  datatype Stored = Stored(checksum: string, rows: seq<Row>)

  /** The documents of one source type, by their source id. */
  type Store = map<string, Stored>

  datatype Stats = Stats(
    documents: nat, ingested: nat, skipped: nat, failed: nat, pruned: nat, chunks: nat, embedded: nat, tokens: nat)

  const NO_STATS := Stats(0, 0, 0, 0, 0, 0, 0, 0)

  datatype EmbedReply = EmbedFailed | Embedded(vectors: seq<Option<Vector>>, tokens: nat)

  /** What the pipeline calls: the chunker, the embedding provider, the database. */
  datatype Env = Env(
    isEmpty: Document -> bool,
    split: Document -> seq<string>,
    embed: seq<string> -> EmbedReply,
    persistFails: Document -> bool
  )

  /** The part of the request that matters here. */
  datatype Options = Options(force: bool, prune: bool, ids: seq<string>, limit: Option<nat>)

  /** Pruning needs a complete load: a loader that allows it, no id filter and no limit. */
  predicate MayPrune(options: Options, prunable: bool) {
    options.prune && prunable && options.ids == [] && (options.limit.None? || options.limit.value == 0)
  }

  datatype Job = Job(document: Document, chunks: seq<string>)

  // ---------------------------------------------------------------- which documents are ingested

  /** The state read before the run already holds this very document. */
  predicate Unchanged(d: Document, stored: Store, force: bool) {
    d.sourceId in stored && !force && stored[d.sourceId].checksum == d.checksum && |stored[d.sourceId].rows| > 0
  }

  predicate Ingestible(env: Env, d: Document) {
    !env.isEmpty(d) && env.split(d) != []
  }

  predicate Selected(env: Env, d: Document, stored: Store, force: bool) {
    Ingestible(env, d) && !Unchanged(d, stored, force)
  }

  // ---------------------------------------------------------------- one batch

  function Texts(batch: seq<Job>): seq<string> {
    if batch == [] then [] else Texts(batch[..|batch| - 1]) + batch[|batch| - 1].chunks
  }

  function ZipRows(chunks: seq<string>, vectors: seq<Option<Vector>>): (rows: seq<Row>)
    requires |vectors| == |chunks|
    ensures |rows| == |chunks| && forall i :: 0 <= i < |rows| ==> rows[i] == Row(chunks[i], vectors[i])
  {
    seq(|chunks|, i requires 0 <= i < |chunks| => Row(chunks[i], vectors[i]))
  }

  /** Padded with None, or cut, to the number of texts. */
  function Fitted(vectors: seq<Option<Vector>>, n: nat): (r: seq<Option<Vector>>)
    ensures |r| == n
    ensures forall i :: 0 <= i < n ==> r[i] == if i < |vectors| then vectors[i] else None
  {
    if |vectors| == n then vectors else (vectors + seq(n, _ => None))[..n]
  }

  /** Did the provider return a vector that is not empty? */
  ghost function HasVector(): Option<Vector> -> bool {
    (v: Option<Vector>) => v != None && v != Some([])
  }

  function CountEmbedded(vectors: seq<Option<Vector>>): (n: nat)
    ensures n == Passing(HasVector(), vectors)
  {
    if vectors == [] then 0
    else
      var last := vectors[|vectors| - 1];
      CountEmbedded(vectors[..|vectors| - 1]) + if last.Some? && last.value != [] then 1 else 0
  }

  datatype Corpus = Corpus(store: Store, stats: Stats)

  /** One document of a batch with the vectors of its chunks. */
  function PersistJob(env: Env, c: Corpus, job: Job, vectors: seq<Option<Vector>>): Corpus
    requires |vectors| == |job.chunks|
  {
    var d := job.document;
    if env.persistFails(d) then c.(stats := c.stats.(failed := c.stats.failed + 1))
    else
      Corpus(c.store[d.sourceId := Stored(d.checksum, ZipRows(job.chunks, vectors))],
             c.stats.(ingested := c.stats.ingested + 1, chunks := c.stats.chunks + |job.chunks|,
                      embedded := c.stats.embedded + CountEmbedded(vectors)))
  }

  lemma {:induction false} TextsStep(batch: seq<Job>, i: nat)
    requires i < |batch|
    ensures Texts(batch[..i + 1]) == Texts(batch[..i]) + batch[i].chunks
  {
    assert batch[..i + 1][..i] == batch[..i];
  }

  lemma {:induction false} TextsOfPrefix(batch: seq<Job>, i: nat)
    requires i <= |batch|
    ensures |Texts(batch[..i])| <= |Texts(batch)|
    ensures Texts(batch)[..|Texts(batch[..i])|] == Texts(batch[..i])
    decreases |batch| - i
  {
    if i == |batch| {
      assert batch[..i] == batch;
    } else {
      TextsOfPrefix(batch, i + 1);
      TextsStep(batch, i);
    }
  }

  /** The documents of a batch in order, each with its own stretch of the vectors. */
  function PersistAll(env: Env, c: Corpus, batch: seq<Job>, vectors: seq<Option<Vector>>): Corpus
    requires |vectors| == |Texts(batch)|
  {
    if batch == [] then c
    else
      var n := |batch| - 1;
      var start := |Texts(batch[..n])|;
      PersistJob(env, PersistAll(env, c, batch[..n], vectors[..start]), batch[n], vectors[start..])
  }

  function FlushBatch(env: Env, c: Corpus, batch: seq<Job>): Corpus {
    var texts := Texts(batch);
    match env.embed(texts)
    case EmbedFailed => c.(stats := c.stats.(failed := c.stats.failed + |batch|))
    case Embedded(vectors, tokens) =>
      PersistAll(env, c.(stats := c.stats.(tokens := c.stats.tokens + tokens)), batch, Fitted(vectors, |texts|))
  }

  // ---------------------------------------------------------------- one source

  datatype Progress = Progress(corpus: Corpus, pending: seq<Job>, pendingChunks: nat)

  function Skip(p: Progress): Progress {
    p.(corpus := p.corpus.(stats := p.corpus.stats.(skipped := p.corpus.stats.skipped + 1)))
  }

  function NextDocument(env: Env, flushSize: nat, stored: Store, force: bool, p: Progress, d: Document): Progress {
    if !Selected(env, d, stored, force) then Skip(p)
    else
      var chunks := env.split(d);
      var pending, count := p.pending + [Job(d, chunks)], p.pendingChunks + |chunks|;
      if count >= flushSize then Progress(FlushBatch(env, p.corpus, pending), [], 0)
      else Progress(p.corpus, pending, count)
  }

  function AllDocuments(env: Env, flushSize: nat, stored: Store, force: bool, p: Progress,
                        docs: seq<Document>): Progress {
    if docs == [] then p
    else
      var n := |docs| - 1;
      NextDocument(env, flushSize, stored, force, AllDocuments(env, flushSize, stored, force, p, docs[..n]), docs[n])
  }

  function LastFlush(env: Env, p: Progress): Corpus {
    if p.pending != [] then FlushBatch(env, p.corpus, p.pending) else p.corpus
  }

  /** Store and counters after a source has been ingested, before pruning. */
  function Ingested(env: Env, flushSize: nat, c: Corpus, force: bool, docs: seq<Document>): Corpus {
    LastFlush(env, AllDocuments(env, flushSize, c.store, force, Progress(c, [], 0), docs))
  }

  function IdsOf(docs: seq<Document>): (ids: set<string>)
    ensures forall d :: d in docs ==> d.sourceId in ids
  {
    set d | d in docs :: d.sourceId
  }

  lemma {:induction false} OneMoreDocument(docs: seq<Document>, i: nat)
    requires i < |docs|
    ensures docs[..i + 1][..i] == docs[..i] && docs[..i + 1][i] == docs[i]
    ensures IdsOf(docs[..i + 1]) == IdsOf(docs[..i]) + {docs[i].sourceId}
  {
    assert docs[..i + 1] == docs[..i] + [docs[i]];
  }

  /** Deletes what the loader no longer produces. */
  function Prune(store: Store, keep: set<string>): Store {
    store - (store.Keys - keep)
  }

  lemma {:induction false} PruneShrinks(store: Store, keep: set<string>)
    ensures Prune(store, keep).Keys == store.Keys * keep && |Prune(store, keep)| <= |store|
    ensures forall id :: id in Prune(store, keep) ==> Prune(store, keep)[id] == store[id]
  {
    var pruned := Prune(store, keep);
    assert pruned.Keys == store.Keys * keep;
    SubsetSize(pruned.Keys, store.Keys);
  }

  function Pruned(c: Corpus, keep: set<string>): (r: Corpus)
    ensures r.stats.pruned + |r.store| == |c.store|
  {
    PruneShrinks(c.store, keep);
    Corpus(Prune(c.store, keep), c.stats.(pruned := |c.store| - |Prune(c.store, keep)|))
  }

  // ---------------------------------------------------------------- what a run skips, and what it keeps

  /** A document is skipped when it is empty, when it has no chunks, or when the store holds this very content, with
      chunks, and nothing is forced. */
  ghost function Skips(env: Env, stored: Store, force: bool): Document -> bool {
    (d: Document) =>
      env.isEmpty(d) || env.split(d) == [] ||
      (!force && d.sourceId in stored && stored[d.sourceId].checksum == d.checksum && stored[d.sourceId].rows != [])
  }

  /** No entry is lost, and so many documents are skipped. */
  ghost predicate KeepsEntries(before: Corpus, after: Corpus, skipped: nat) {
    before.store.Keys <= after.store.Keys && after.stats.skipped == before.stats.skipped + skipped &&
    after.stats.pruned == before.stats.pruned
  }

  lemma {:induction false} PersistKeeps(env: Env, c: Corpus, batch: seq<Job>, vectors: seq<Option<Vector>>)
    requires |vectors| == |Texts(batch)|
    ensures KeepsEntries(c, PersistAll(env, c, batch, vectors), 0)
  {
    if batch != [] {
      var n := |batch| - 1;
      PersistKeeps(env, c, batch[..n], vectors[..|Texts(batch[..n])|]);
    }
  }

  lemma {:induction false} FlushKeeps(env: Env, c: Corpus, batch: seq<Job>)
    ensures KeepsEntries(c, FlushBatch(env, c, batch), 0)
  {
    var reply := env.embed(Texts(batch));
    if reply.Embedded? {
      PersistKeeps(env, c.(stats := c.stats.(tokens := c.stats.tokens + reply.tokens)), batch,
                   Fitted(reply.vectors, |Texts(batch)|));
    }
  }

  lemma {:induction false} NextKeeps(env: Env, flushSize: nat, stored: Store, force: bool, p: Progress, d: Document)
    ensures KeepsEntries(p.corpus, NextDocument(env, flushSize, stored, force, p, d).corpus,
                         if Skips(env, stored, force)(d) then 1 else 0)
  {
    FlushKeeps(env, p.corpus, p.pending + [Job(d, env.split(d))]);
  }

  lemma {:induction false} LoopKeeps(env: Env, flushSize: nat, stored: Store, force: bool, p: Progress,
                                     docs: seq<Document>)
    ensures KeepsEntries(p.corpus, AllDocuments(env, flushSize, stored, force, p, docs).corpus,
                         Passing(Skips(env, stored, force), docs))
  {
    if docs != [] {
      var n := |docs| - 1;
      LoopKeeps(env, flushSize, stored, force, p, docs[..n]);
      NextKeeps(env, flushSize, stored, force, AllDocuments(env, flushSize, stored, force, p, docs[..n]), docs[n]);
    }
  }

  /** A batch goes out as soon as it is full, and not before. */
  lemma {:induction false} BatchesAreFull(env: Env, flushSize: nat, stored: Store, force: bool, p: Progress,
                                          d: Document)
    requires flushSize > 0 && p.pendingChunks < flushSize
    ensures var r := NextDocument(env, flushSize, stored, force, p, d);
      r.pendingChunks < flushSize &&
      if Skips(env, stored, force)(d) then r.pending == p.pending
      else if p.pendingChunks + |env.split(d)| < flushSize then
        r.corpus == p.corpus && r.pending == p.pending + [Job(d, env.split(d))]
      else r.corpus == FlushBatch(env, p.corpus, p.pending + [Job(d, env.split(d))]) && r.pending == []
  {
  }

  /** Whatever fails, a run loses no entry of the store and skips exactly these documents. */
  lemma {:induction false} IngestedKeeps(env: Env, flushSize: nat, c: Corpus, force: bool, docs: seq<Document>)
    ensures KeepsEntries(c, Ingested(env, flushSize, c, force, docs), Passing(Skips(env, c.store, force), docs))
  {
    var p := AllDocuments(env, flushSize, c.store, force, Progress(c, [], 0), docs);
    LoopKeeps(env, flushSize, c.store, force, Progress(c, [], 0), docs);
    FlushKeeps(env, p.corpus, p.pending);
  }

  lemma {:induction false} PrunedKeeps(c: Corpus, keep: set<string>)
    ensures Pruned(c, keep).store.Keys <= keep && Pruned(c, keep).stats.skipped == c.stats.skipped
  {
    PruneShrinks(c.store, keep);
  }

  ghost predicate IsLoaded(docs: seq<Document>, id: string) {
    exists d :: d in docs && d.sourceId == id
  }

  /** A run that loaded a part of the source, or was not asked to prune, or whose loader cannot be pruned, loses no id;
      any other keeps no other id than those it loaded. */
  ghost predicate PrunesCompleteLoads(before: Store, after: Corpus, options: Options, prunable: bool,
                                      docs: seq<Document>)
  {
    if options.ids != [] || (options.limit.Some? && options.limit.value > 0) || !prunable || !options.prune
    then before.Keys <= after.store.Keys && after.stats.pruned == 0
    else forall id :: id in after.store ==> IsLoaded(docs, id)
  }

  lemma {:induction false} IdsAreLoaded(docs: seq<Document>, id: string)
    requires id in IdsOf(docs)
    ensures IsLoaded(docs, id)
  {
  }

  lemma {:induction false} PrunedIsLoaded(c: Corpus, docs: seq<Document>)
    ensures forall id :: id in Pruned(c, IdsOf(docs)).store ==> IsLoaded(docs, id)
    ensures Pruned(c, IdsOf(docs)).stats.skipped == c.stats.skipped
  {
    PrunedKeeps(c, IdsOf(docs));
    forall id | id in Pruned(c, IdsOf(docs)).store ensures IsLoaded(docs, id) {
      IdsAreLoaded(docs, id);
    }
  }

  /** What pruning, where it may happen, makes of an ingested source. */
  function Outcome(done: Corpus, options: Options, prunable: bool, docs: seq<Document>): Corpus {
    if MayPrune(options, prunable) then Pruned(done, IdsOf(docs)) else done
  }

  lemma {:induction false} OutcomeKeeps(before: Corpus, done: Corpus, options: Options, prunable: bool,
                                        docs: seq<Document>, skipped: nat)
    requires before.stats.skipped == 0 && before.stats.pruned == 0 && KeepsEntries(before, done, skipped)
    ensures PrunesCompleteLoads(before.store, Outcome(done, options, prunable, docs), options, prunable, docs)
    ensures Outcome(done, options, prunable, docs).stats.skipped == skipped
  {
    if MayPrune(options, prunable) {
      PrunedIsLoaded(done, docs);
    }
  }

  // ---------------------------------------------------------------- the pipeline

  lemma {:induction false} PersistStep(env: Env, c: Corpus, batch: seq<Job>, vectors: seq<Option<Vector>>, i: nat)
    requires |vectors| == |Texts(batch)| && i < |batch|
    ensures var start, end := |Texts(batch[..i])|, |Texts(batch[..i + 1])|;
      start + |batch[i].chunks| == end <= |vectors| &&
      PersistAll(env, c, batch[..i + 1], vectors[..end]) ==
      PersistJob(env, PersistAll(env, c, batch[..i], vectors[..start]), batch[i], vectors[start..end])
  {
    TextsStep(batch, i);
    TextsOfPrefix(batch, i + 1);
    var start, end := |Texts(batch[..i])|, |Texts(batch[..i + 1])|;
    assert batch[..i + 1][..i] == batch[..i];
    assert vectors[..end][..start] == vectors[..start] && vectors[..end][start..] == vectors[start..end];
  }

  class IngestionPipeline {
    const env: Env
    const flushSize: nat
    var store: Store
    var stats: Stats

    constructor (env: Env, batchSize: int, concurrency: int, store: Store)
      ensures this.env == env && this.store == store && this.stats == NO_STATS
      ensures flushSize == if batchSize * concurrency < 1 then 1 else batchSize * concurrency
    {
      this.env, this.store, this.stats := env, store, NO_STATS;
      flushSize := if batchSize * concurrency < 1 then 1 else batchSize * concurrency;
    }

    function Contents(): Corpus
      reads this
    {
      Corpus(store, stats)
    }

    method Persist(job: Job, vectors: seq<Option<Vector>>) returns (ok: bool)
      requires |vectors| == |job.chunks|
      modifies this`store
      ensures ok <==> !env.persistFails(job.document)
      ensures store == if ok
        then old(store)[job.document.sourceId := Stored(job.document.checksum, ZipRows(job.chunks, vectors))]
        else old(store)
    {
      ok := !env.persistFails(job.document);
      if ok {
        store := store[job.document.sourceId := Stored(job.document.checksum, ZipRows(job.chunks, vectors))];
      }
    }

    method CollectTexts(batch: seq<Job>) returns (texts: seq<string>)
      ensures texts == Texts(batch)
    {
      texts := [];
      for i := 0 to |batch|
        invariant texts == Texts(batch[..i])
      {
        TextsStep(batch, i);
        texts := texts + batch[i].chunks;
      }
      assert batch[..|batch|] == batch;
    }

    /** One document of a batch: persisted and counted, or recorded as failed. */
    method PersistNext(job: Job, documentVectors: seq<Option<Vector>>)
      requires |documentVectors| == |job.chunks|
      modifies this
      ensures Contents() == PersistJob(env, old(Contents()), job, documentVectors)
    {
      var ok := Persist(job, documentVectors);
      if !ok {
        stats := stats.(failed := stats.failed + 1);
        return;
      }
      stats := stats.(ingested := stats.ingested + 1, chunks := stats.chunks + |job.chunks|,
                      embedded := stats.embedded + CountEmbedded(documentVectors));
    }

    method PersistBatch(batch: seq<Job>, vectors: seq<Option<Vector>>)
      requires |vectors| == |Texts(batch)|
      modifies this
      ensures Contents() == PersistAll(env, old(Contents()), batch, vectors)
    {
      var cursor := 0;
      for i := 0 to |batch|
        invariant cursor == |Texts(batch[..i])| <= |vectors|
        invariant Contents() == PersistAll(env, old(Contents()), batch[..i], vectors[..cursor])
      {
        PersistStep(env, old(Contents()), batch, vectors, i);
        var documentVectors := vectors[cursor..cursor + |batch[i].chunks|];
        cursor := cursor + |batch[i].chunks|;
        PersistNext(batch[i], documentVectors);
      }
      assert batch[..|batch|] == batch && vectors[..|vectors|] == vectors;
    }

    /** Embeds one batch of chunks and persists the documents that own them. */
    method Flush(batch: seq<Job>)
      modifies this
      ensures Contents() == FlushBatch(env, old(Contents()), batch)
    {
      var texts := CollectTexts(batch);
      var reply := env.embed(texts);
      if reply.EmbedFailed? {
        for i := 0 to |batch|
          invariant Contents() == old(Contents()).(stats := old(stats).(failed := old(stats).failed + i))
        {
          stats := stats.(failed := stats.failed + 1);
        }
        return;
      }
      stats := stats.(tokens := stats.tokens + reply.tokens);
      PersistBatch(batch, Fitted(reply.vectors, |texts|));
    }

    /** One document of the loop: skipped, or queued until a batch is full. */
    method Take(document: Document, stored: Store, force: bool, pending: seq<Job>, pendingChunks: nat)
      returns (queue: seq<Job>, count: nat)
      modifies this
      ensures Progress(Contents(), queue, count)
           == NextDocument(env, flushSize, stored, force, Progress(old(Contents()), pending, pendingChunks), document)
    {
      queue, count := pending, pendingChunks;
      if env.isEmpty(document) {
        stats := stats.(skipped := stats.skipped + 1);
        return;
      }
      if Unchanged(document, stored, force) {
        stats := stats.(skipped := stats.skipped + 1);
        return;
      }
      var chunks := env.split(document);
      if chunks == [] {
        stats := stats.(skipped := stats.skipped + 1);
        return;
      }
      queue := queue + [Job(document, chunks)];
      count := count + |chunks|;
      if count >= flushSize {
        Flush(queue);
        queue, count := [], 0;
      }
    }

    method PruneTo(seenIds: set<string>)
      modifies this
      ensures store == Prune(old(store), seenIds)
      ensures stats == old(stats).(pruned := |old(store)| - |Prune(old(store), seenIds)|)
    {
      PruneShrinks(store, seenIds);
      var removed := |store| - |Prune(store, seenIds)|;
      store := Prune(store, seenIds);
      stats := stats.(pruned := removed);
    }

    /** The document loop: `stored` is the store as the run found it, and the ids it has seen are collected for
        pruning. */
    method TakeAll(docs: seq<Document>, force: bool, stored: Store)
      returns (pending: seq<Job>, pendingChunks: nat, seenIds: set<string>)
      modifies this
      ensures Progress(Contents(), pending, pendingChunks)
           == AllDocuments(env, flushSize, stored, force, Progress(old(Contents()), [], 0), docs)
      ensures seenIds == IdsOf(docs)
    {
      ghost var start := Progress(Contents(), [], 0);
      pending, pendingChunks, seenIds := [], 0, {};
      for i := 0 to |docs|
        invariant Progress(Contents(), pending, pendingChunks)
               == AllDocuments(env, flushSize, stored, force, start, docs[..i])
        invariant seenIds == IdsOf(docs[..i])
      {
        OneMoreDocument(docs, i);
        seenIds := seenIds + {docs[i].sourceId};
        pending, pendingChunks := Take(docs[i], stored, force, pending, pendingChunks);
      }
      assert docs[..|docs|] == docs;
    }

    /** One source from its loaded documents to the pruned store. */
    method IngestSource(docs: seq<Document>, options: Options, prunable: bool)
      modifies this
      ensures var before := Corpus(old(store), NO_STATS.(documents := |docs|));
        var done := Ingested(env, flushSize, before, options.force, docs);
        Contents() == Outcome(done, options, prunable, docs)
      ensures PrunesCompleteLoads(old(store), Contents(), options, prunable, docs)
      ensures stats.skipped == Passing(Skips(env, old(store), options.force), docs)
    {
      ghost var before := Corpus(store, NO_STATS.(documents := |docs|));
      ghost var done := Ingested(env, flushSize, before, options.force, docs);
      IngestedKeeps(env, flushSize, before, options.force, docs);
      OutcomeKeeps(before, done, options, prunable, docs, Passing(Skips(env, store, options.force), docs));
      stats := NO_STATS.(documents := |docs|);
      var pending, pendingChunks, seenIds := TakeAll(docs, options.force, store);
      if pending != [] {
        Flush(pending);
      }
      if MayPrune(options, prunable) {
        PruneTo(seenIds);
      }
    }
  }
}
