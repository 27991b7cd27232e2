/** The retrieval-augmented pipeline (`RAGService` in
    backend/src/services/rag_service.py) over an embedder, a vector store and
    an answer generator. The embedding model, the store's similarity ranking
    and the id generator are functions the services are built with; the
    ghost logs `embedded` and `searches` record the calls made to them. */
module RagService {
  import opened Wrappers
  import opened Text
  import opened Chunking
  import opened ClaudeProcessing

  type Embedding = seq<real>

  /** `Embedder`: `embed_text` applies the model; `embedded` lists the texts
      it was applied to, in call order. */
  class Embedder {
    const model: string -> Result<Embedding, string>
    ghost var embedded: seq<string>

    constructor (model: string -> Result<Embedding, string>)
      ensures this.model == model && embedded == []
    {
      this.model := model;
      embedded := [];
    }

    method EmbedText(text: string) returns (r: Result<Embedding, string>)
      modifies this
      ensures r == model(text)
      ensures embedded == old(embedded) + [text]
    {
      r := model(text);
      embedded := embedded + [text];
    }
  }

  /** The payload of a point: its vector, its content and its metadata. */
  datatype StoredPoint = StoredPoint(embedding: Embedding, content: string, metadata: ChunkMetadata)

  /** `VectorStore`: a map from point id to stored point, written by upsert,
      and searched through the ranking function `rank`. */
  class VectorStore {
    var points: map<string, StoredPoint>
    /** The store's nearest-neighbour search for (points, query vector, limit). */
    const rank: (map<string, StoredPoint>, Embedding, nat) -> Result<seq<Retrieved>, string>
    ghost var searches: seq<(Embedding, nat)>

    constructor (rank: (map<string, StoredPoint>, Embedding, nat) -> Result<seq<Retrieved>, string>)
      ensures this.rank == rank && points == map[] && searches == []
    {
      this.rank := rank;
      points := map[];
      searches := [];
    }

    /** `store_chunk`: an upsert of one point. */
    method StoreChunk(chunkId: string, embedding: Embedding, content: string, metadata: ChunkMetadata)
      modifies this
      ensures points == old(points)[chunkId := StoredPoint(embedding, content, metadata)]
      ensures searches == old(searches)
    {
      points := points[chunkId := StoredPoint(embedding, content, metadata)];
    }

    /** `search_similar`: the store is read, not written. */
    method SearchSimilar(queryEmbedding: Embedding, limit: nat) returns (r: Result<seq<Retrieved>, string>)
      modifies this
      ensures r == rank(points, queryEmbedding, limit)
      ensures points == old(points)
      ensures searches == old(searches) + [(queryEmbedding, limit)]
    {
      r := rank(points, queryEmbedding, limit);
      searches := searches + [(queryEmbedding, limit)];
    }
  }

  // ---------------------------------------------------------------------
  // Queries
  // ---------------------------------------------------------------------

  const SearchLimit: nat := 5
  const NoProcessorMessage: string :=
    "Claude processor is not available. Please set the CLAUDE_API_KEY environment variable."
  const NoMatchAnswer: string :=
    "I couldn't find any relevant information in the textbook to answer your question."
  const NoMatchConfidence: real := 0.1

  /** The dictionary `process_query` returns: the fixed reply when the search
      finds nothing (it has no `user_id` or `chapter_context` key), otherwise
      the generator's answer with the request echoed. */
  datatype QueryResult =
    | NoMatch(query: string)
    | Answered(
        query: string,
        answer: string,
        citations: seq<Citation>,
        confidence: real,
        chunksUsed: nat,
        userId: Option<string>,
        chapterContext: Option<string>)
  {
    function AnswerText(): string {
      if NoMatch? then NoMatchAnswer else answer
    }

    function CitationList(): seq<Citation> {
      if NoMatch? then [] else citations
    }

    function ConfidenceScore(): real {
      if NoMatch? then NoMatchConfidence else confidence
    }
  }

  /** The result built from a successful generation over a non-empty hit list. */
  function AnsweredFrom(query: string, userId: Option<string>, chapterContext: Option<string>,
                        hits: seq<Retrieved>, g: Result<Generation, string>): Result<QueryResult, string>
  {
    match g
    case Failure(e) => Failure(e)
    case Success(gen) =>
      Success(Answered(query, gen.answer, gen.citations, gen.confidence, |hits|, userId, chapterContext))
  }

  /** The parts of the pipeline a query reads: the embedding model, the
      store's ranking and points, and the processor, if there is one. */
  datatype PipelineState = PipelineState(
    model: string -> Result<Embedding, string>,
    rank: (map<string, StoredPoint>, Embedding, nat) -> Result<seq<Retrieved>, string>,
    points: map<string, StoredPoint>,
    processor: Option<ProcessorSnapshot>)

  /** What `process_query` returns from pipeline state `s`. */
  function QueryOutcome(s: PipelineState, query: string, userId: Option<string>, chapterContext: Option<string>): Result<QueryResult, string> {
    if s.processor.None? then Failure(NoProcessorMessage)
    else match s.model(query)
      case Failure(e) => Failure(e)
      case Success(v) =>
        match s.rank(s.points, v, SearchLimit)
        case Failure(e) => Failure(e)
        case Success(hits) =>
          if hits == [] then Success(NoMatch(query))
          else AnsweredFrom(query, userId, chapterContext, hits, GenerateSpec(s.processor.value, query, hits, DefaultMaxTokens))
  }

  /** A successful query is either the fixed no-match reply (when the top-5
      search of the query's embedding finds nothing) or the generator's
      answer over those hits, copied verbatim with the hit count and the
      echoed user and chapter. */
  lemma QueryOutcomeCases(s: PipelineState, query: string, userId: Option<string>, chapterContext: Option<string>)
    requires QueryOutcome(s, query, userId, chapterContext).Success?
    ensures s.processor.Some? && s.model(query).Success?
    ensures var hits := s.rank(s.points, s.model(query).value, SearchLimit);
      var r := QueryOutcome(s, query, userId, chapterContext).value;
      hits.Success? &&
      (r.NoMatch? <==> hits.value == []) &&
      (r.NoMatch? ==> r.AnswerText() == NoMatchAnswer && r.CitationList() == [] && r.ConfidenceScore() == 0.1) &&
      (r.Answered? ==>
        var g := GenerateSpec(s.processor.value, query, hits.value, DefaultMaxTokens);
        g.Success? && r.answer == g.value.answer && r.citations == g.value.citations &&
        r.confidence == g.value.confidence && r.chunksUsed == |hits.value| > 0 &&
        r.userId == userId && r.chapterContext == chapterContext)
  {
  }

  /** The generator's output on a non-empty hit list carries one citation per
      hit and a confidence that is not the "no chunks" 0.2 of the processor:
      that branch needs an empty list, and `process_query` never passes one. */
  lemma GeneratedOverHits(response: Result<Response, string>, hits: seq<Retrieved>)
    requires hits != []
    requires Generated(response, hits).Success?
    ensures var gen := Generated(response, hits).value;
      |gen.citations| == |hits| &&
      (Declines(gen.answer) ==> gen.confidence == 0.1) &&
      (!Declines(gen.answer) ==>
        gen.confidence == Min(SimilaritySum(hits) / (|hits| as real) * 0.7 + LengthFactor(gen.answer) * 0.3, 1.0))
  {
    EnumeratedShape(hits, CitationOf);
  }

  // ---------------------------------------------------------------------
  // Indexing
  // ---------------------------------------------------------------------

  /** One entry of `processed_chunks`. */
  datatype ProcessedChunk = ProcessedChunk(chunkId: string, contentLength: nat, metadata: ChunkMetadata)

  datatype IndexReport = IndexReport(
    chapterId: string,
    chunksProcessed: nat,
    totalContentLength: nat,
    processedChunks: seq<ProcessedChunk>)

  /** How many leading chunks embed without an error: the loop stops at the
      first chunk whose embedding fails. */
  function EmbeddablePrefix(model: string -> Result<Embedding, string>, chunks: seq<Chunk>): (n: nat)
    ensures n <= |chunks|
    ensures forall k :: 0 <= k < n ==> model(chunks[k].content).Success?
    ensures n < |chunks| ==> model(chunks[n].content).Failure?
  {
    if chunks == [] || model(chunks[0].content).Failure? then 0
    else 1 + EmbeddablePrefix(model, chunks[1..])
  }

  /** The error the loop stops with: that of the first chunk that fails to
      embed, if there is one. */
  function FirstError(model: string -> Result<Embedding, string>, chunks: seq<Chunk>): Option<string> {
    var n := EmbeddablePrefix(model, chunks);
    if n < |chunks| then Some(model(chunks[n].content).error) else None
  }

  function PointOf(model: string -> Result<Embedding, string>, c: Chunk): StoredPoint {
    StoredPoint(if model(c.content).Success? then model(c.content).value else [], c.content, c.metadata)
  }

  /** The (id, point) pairs written for the first `n` chunks by a run whose
      first id is `ids(first)`. */
  function Entries(model: string -> Result<Embedding, string>, ids: nat -> string, first: nat, chunks: seq<Chunk>, n: nat): seq<(string, StoredPoint)>
    requires n <= |chunks|
  {
    if n == 0 then []
    else Entries(model, ids, first, chunks, n - 1) + [(ids(first + n - 1), PointOf(model, chunks[n - 1]))]
  }

  /** The `processed_chunks` entries for the first `n` chunks. */
  function Processed(ids: nat -> string, first: nat, chunks: seq<Chunk>, n: nat): (r: seq<ProcessedChunk>)
    requires n <= |chunks|
    ensures |r| == n
  {
    if n == 0 then []
    else Processed(ids, first, chunks, n - 1) + [ProcessedChunk(ids(first + n - 1), |chunks[n - 1].content|, chunks[n - 1].metadata)]
  }

  /** The texts handed to the embedder for the first `n` chunks. */
  function Contents(chunks: seq<Chunk>, n: nat): seq<string>
    requires n <= |chunks|
  {
    if n == 0 then [] else Contents(chunks, n - 1) + [chunks[n - 1].content]
  }

  lemma ContentsStep(chunks: seq<Chunk>, i: nat, start: seq<string>, before: seq<string>, after: seq<string>)
    requires i < |chunks| && before == start + Contents(chunks, i)
    requires after == before + [chunks[i].content]
    ensures after == start + Contents(chunks, i + 1)
  {
  }

  /** The points map after upserting `entries` in order. */
  function StoreAll(points: map<string, StoredPoint>, entries: seq<(string, StoredPoint)>): map<string, StoredPoint> {
    if entries == [] then points
    else StoreAll(points, entries[..|entries| - 1])[entries[|entries| - 1].0 := entries[|entries| - 1].1]
  }

  lemma StoreAllSnoc(points: map<string, StoredPoint>, entries: seq<(string, StoredPoint)>, e: (string, StoredPoint))
    ensures StoreAll(points, entries + [e]) == StoreAll(points, entries)[e.0 := e.1]
  {
    assert (entries + [e])[..|entries|] == entries;
  }

  /** The points after upserting the first `n` chunks, one id each from
      `ids(first)` on. */
  function StoredAfter(model: string -> Result<Embedding, string>, ids: nat -> string, first: nat,
                       points: map<string, StoredPoint>, chunks: seq<Chunk>, n: nat): map<string, StoredPoint>
    requires n <= |chunks|
  {
    if n == 0 then points
    else StoredAfter(model, ids, first, points, chunks, n - 1)[ids(first + n - 1) := PointOf(model, chunks[n - 1])]
  }

  /** Storing chunk by chunk is upserting their entries in order. */
  lemma {:induction false} StoredAfterIsStoreAll(model: string -> Result<Embedding, string>, ids: nat -> string, first: nat,
                                                 points: map<string, StoredPoint>, chunks: seq<Chunk>, n: nat)
    requires n <= |chunks|
    ensures StoredAfter(model, ids, first, points, chunks, n) == StoreAll(points, Entries(model, ids, first, chunks, n))
  {
    if n > 0 {
      StoredAfterIsStoreAll(model, ids, first, points, chunks, n - 1);
      StoreAllSnoc(points, Entries(model, ids, first, chunks, n - 1), (ids(first + n - 1), PointOf(model, chunks[n - 1])));
    }
  }

  /** Upserting never drops a point: every id stored is an earlier one or an entry's. */
  lemma {:induction false} StoreAllOnly(points: map<string, StoredPoint>, entries: seq<(string, StoredPoint)>)
    ensures var m := StoreAll(points, entries);
      forall id :: id in m ==> id in points || exists a :: 0 <= a < |entries| && entries[a].0 == id
  {
    if entries != [] {
      var n := |entries| - 1;
      var init := entries[..n];
      StoreAllOnly(points, init);
      var m := StoreAll(points, entries);
      forall id | id in m
        ensures id in points || exists a :: 0 <= a < |entries| && entries[a].0 == id
      {
        if id != entries[n].0 && id !in points {
          var a :| 0 <= a < |init| && init[a].0 == id;
          assert entries[a] == init[a];
        }
      }
    }
  }

  /** Upserting under ids not among the points leaves every point as it was. */
  lemma {:induction false} StoreAllKeeps(points: map<string, StoredPoint>, entries: seq<(string, StoredPoint)>)
    requires forall a :: 0 <= a < |entries| ==> entries[a].0 !in points
    ensures var m := StoreAll(points, entries);
      forall id :: id in points ==> id in m && m[id] == points[id]
  {
    if entries != [] {
      var n := |entries| - 1;
      var init := entries[..n];
      assert forall a :: 0 <= a < |init| ==> init[a] == entries[a];
      StoreAllKeeps(points, init);
    }
  }

  /** Upserting under pairwise distinct ids stores every entry. */
  lemma {:induction false} StoreAllHas(points: map<string, StoredPoint>, entries: seq<(string, StoredPoint)>)
    requires forall a, b :: 0 <= a < b < |entries| ==> entries[a].0 != entries[b].0
    ensures var m := StoreAll(points, entries);
      forall a :: 0 <= a < |entries| ==> entries[a].0 in m && m[entries[a].0] == entries[a].1
  {
    if entries != [] {
      var n := |entries| - 1;
      var init := entries[..n];
      assert forall a :: 0 <= a < |init| ==> init[a] == entries[a];
      StoreAllHas(points, init);
      var m := StoreAll(points, entries);
      forall a | 0 <= a < |entries|
        ensures entries[a].0 in m && m[entries[a].0] == entries[a].1
      {
        if a < n {
          assert init[a] == entries[a];
        }
      }
    }
  }

  /** Upserting under fresh, pairwise distinct ids adds one point per entry. */
  lemma {:induction false} StoreAllSize(points: map<string, StoredPoint>, entries: seq<(string, StoredPoint)>)
    requires forall a, b :: 0 <= a < b < |entries| ==> entries[a].0 != entries[b].0
    requires forall a :: 0 <= a < |entries| ==> entries[a].0 !in points
    ensures |StoreAll(points, entries)| == |points| + |entries|
  {
    if entries != [] {
      var n := |entries| - 1;
      var init := entries[..n];
      assert forall a :: 0 <= a < |init| ==> init[a] == entries[a];
      StoreAllSize(points, init);
      StoreAllOnly(points, init);
      var m0 := StoreAll(points, init);
      var e := entries[n];
      assert e.0 !in m0 by {
        forall a | 0 <= a < |init|
          ensures init[a].0 != e.0
        {
          assert init[a] == entries[a];
        }
      }
    }
  }

  /** Upserting entries under fresh, pairwise distinct ids adds exactly those
      entries and leaves every earlier point as it was. */
  lemma StoreAllFresh(points: map<string, StoredPoint>, entries: seq<(string, StoredPoint)>)
    requires forall a, b :: 0 <= a < b < |entries| ==> entries[a].0 != entries[b].0
    requires forall a :: 0 <= a < |entries| ==> entries[a].0 !in points
    ensures var m := StoreAll(points, entries);
      |m| == |points| + |entries| &&
      (forall id :: id in points ==> id in m && m[id] == points[id]) &&
      (forall a :: 0 <= a < |entries| ==> entries[a].0 in m && m[entries[a].0] == entries[a].1) &&
      (forall id :: id in m ==> id in points || exists a :: 0 <= a < |entries| && entries[a].0 == id)
  {
    StoreAllSize(points, entries);
    StoreAllKeeps(points, entries);
    StoreAllHas(points, entries);
    StoreAllOnly(points, entries);
  }

  /** The metadata-bearing report of a run that embedded every chunk. */
  function Report(chapterId: string, content: string, chunks: seq<Chunk>, ids: nat -> string, first: nat): IndexReport {
    IndexReport(chapterId, |chunks|, |content|, Processed(ids, first, chunks, |chunks|))
  }

  /** The report counts one entry per chunk, each with its chunk's length and
      metadata and the id its point was stored under. */
  lemma ReportShape(chapterId: string, content: string, chunks: seq<Chunk>, ids: nat -> string, first: nat)
    ensures var r := Report(chapterId, content, chunks, ids, first);
      r.chunksProcessed == |chunks| == |r.processedChunks| &&
      r.totalContentLength == |content| &&
      forall k :: 0 <= k < |chunks| ==>
        r.processedChunks[k] == ProcessedChunk(ids(first + k), |chunks[k].content|, chunks[k].metadata)
  {
    ProcessedEntries(ids, first, chunks, |chunks|);
  }

  /** Entry `k` of `Processed` describes chunk `k`. */
  lemma {:induction false} ProcessedEntries(ids: nat -> string, first: nat, chunks: seq<Chunk>, n: nat)
    requires n <= |chunks|
    ensures var q := Processed(ids, first, chunks, n);
      forall k :: 0 <= k < n ==> q[k] == ProcessedChunk(ids(first + k), |chunks[k].content|, chunks[k].metadata)
  {
    if n > 0 {
      ProcessedEntries(ids, first, chunks, n - 1);
    }
  }

  /** What a run of the indexing loop over `chunks` leaves behind, starting
      from id `ids(first)`, the points `pointsBefore` and the embedder log
      `embeddedBefore`: with `n` the number of leading chunks that embed,
      exactly those `n` chunks were upserted, in order, under the next `n`
      ids, and nothing stored before is rolled back; the embedder saw those
      `n` texts and, when the run stopped early, the failing one; `failure`
      is that chunk's error. */
  ghost predicate StoredRun(model: string -> Result<Embedding, string>, ids: nat -> string, first: nat, drawn: nat,
                            pointsBefore: map<string, StoredPoint>, pointsAfter: map<string, StoredPoint>,
                            embeddedBefore: seq<string>, embeddedAfter: seq<string>,
                            chunks: seq<Chunk>, failure: Option<string>) {
    var n := EmbeddablePrefix(model, chunks);
    drawn == first + n &&
    pointsAfter == StoredAfter(model, ids, first, pointsBefore, chunks, n) &&
    embeddedAfter == embeddedBefore + Contents(chunks, if n < |chunks| then n + 1 else n) &&
    failure == FirstError(model, chunks)
  }

  /** One pass of the indexing loop as a value: what it returns, how many ids
      were drawn afterwards and the points afterwards. */
  datatype ChunkOutcome = ChunkOutcome(result: Result<ProcessedChunk, string>, drawn: nat, points: map<string, StoredPoint>)

  /** Embedding `c` either fails, and nothing else happens, or yields a
      vector, and the point is upserted under the next id. */
  function IndexedChunk(model: string -> Result<Embedding, string>, ids: nat -> string, drawn: nat,
                        points: map<string, StoredPoint>, c: Chunk): ChunkOutcome {
    var e := model(c.content);
    if e.Failure? then ChunkOutcome(Failure(e.error), drawn, points)
    else ChunkOutcome(Success(ProcessedChunk(ids(drawn), |c.content|, c.metadata)), drawn + 1,
      points[ids(drawn) := StoredPoint(e.value, c.content, c.metadata)])
  }

  /** Pass `i` of the loop, started inside the embeddable prefix, either
      extends the run by chunk `i` or ends it with the run's error. */
  lemma ChunkStep(model: string -> Result<Embedding, string>, ids: nat -> string, first: nat,
                  points: map<string, StoredPoint>, chunks: seq<Chunk>, i: nat,
                  processed: seq<ProcessedChunk>, out: ChunkOutcome)
    requires i < |chunks| && i <= EmbeddablePrefix(model, chunks)
    requires processed == Processed(ids, first, chunks, i)
    requires out == IndexedChunk(model, ids, first + i, StoredAfter(model, ids, first, points, chunks, i), chunks[i])
    ensures out.result.Success? ==>
      i + 1 <= EmbeddablePrefix(model, chunks) && out.drawn == first + i + 1 &&
      out.points == StoredAfter(model, ids, first, points, chunks, i + 1) &&
      processed + [out.result.value] == Processed(ids, first, chunks, i + 1)
    ensures out.result.Failure? ==>
      i == EmbeddablePrefix(model, chunks) && out.drawn == first + i &&
      out.points == StoredAfter(model, ids, first, points, chunks, i) &&
      Some(out.result.error) == FirstError(model, chunks)
  {
  }

  /** A run that ended, at the first chunk that fails or after the last one. */
  lemma RunEnds(model: string -> Result<Embedding, string>, ids: nat -> string, first: nat, drawn: nat,
                pointsBefore: map<string, StoredPoint>, pointsAfter: map<string, StoredPoint>,
                embeddedBefore: seq<string>, embeddedAfter: seq<string>, chunks: seq<Chunk>, i: nat, failure: Option<string>)
    requires i <= |chunks| && i == EmbeddablePrefix(model, chunks)
    requires drawn == first + i && pointsAfter == StoredAfter(model, ids, first, pointsBefore, chunks, i)
    requires embeddedAfter == embeddedBefore + Contents(chunks, if i < |chunks| then i + 1 else i)
    requires failure == FirstError(model, chunks)
    ensures StoredRun(model, ids, first, drawn, pointsBefore, pointsAfter, embeddedBefore, embeddedAfter, chunks, failure)
  {
  }

  /** The `k`-th id a run starting at `ids(first)` draws. */
  function DrawnId(ids: nat -> string, first: nat, k: nat): string {
    ids(first + k)
  }

  /** Entry `k` of a run is chunk `k`'s point under the `k`-th id drawn. */
  lemma {:induction false} EntriesAt(model: string -> Result<Embedding, string>, ids: nat -> string, first: nat, chunks: seq<Chunk>, n: nat)
    requires n <= |chunks|
    ensures var es := Entries(model, ids, first, chunks, n);
      |es| == n && forall k :: 0 <= k < n ==> es[k] == (DrawnId(ids, first, k), PointOf(model, chunks[k]))
  {
    if n > 0 {
      EntriesAt(model, ids, first, chunks, n - 1);
    }
  }

  /** The `n` ids a run starting at `ids(first)` draws are pairwise distinct
      and none of them is stored in `points`: what `uuid.uuid4()` is trusted
      to give. */
  ghost predicate FreshIds(ids: nat -> string, first: nat, n: nat, points: map<string, StoredPoint>) {
    && (forall j, k :: 0 <= j < k < n ==> DrawnId(ids, first, j) != DrawnId(ids, first, k))
    && (forall k :: 0 <= k < n ==> DrawnId(ids, first, k) !in points)
  }

  /** The store after a run that drew `n` ids for the first `n` chunks, all
      of which embedded: one new point per id drawn, holding that chunk's
      vector, content and metadata; every earlier point as it was; nothing
      else. */
  ghost predicate GainedOnePerChunk(model: string -> Result<Embedding, string>, ids: nat -> string, first: nat, n: nat,
                                    chunks: seq<Chunk>, pointsBefore: map<string, StoredPoint>, pointsAfter: map<string, StoredPoint>) {
    && n <= |chunks|
    && (forall k :: 0 <= k < n ==> model(chunks[k].content).Success?)
    && |pointsAfter| == |pointsBefore| + n
    && (forall id :: id in pointsBefore ==> id in pointsAfter && pointsAfter[id] == pointsBefore[id])
    && (forall k :: 0 <= k < n ==>
          DrawnId(ids, first, k) in pointsAfter && pointsAfter[DrawnId(ids, first, k)] == PointOf(model, chunks[k]))
    && (forall id :: id in pointsAfter ==> id in pointsBefore || exists k :: 0 <= k < n && DrawnId(ids, first, k) == id)
  }

  /** The entries of a run under fresh, distinct ids have fresh, distinct ids. */
  lemma EntriesFresh(model: string -> Result<Embedding, string>, ids: nat -> string, first: nat,
                     chunks: seq<Chunk>, n: nat, points: map<string, StoredPoint>)
    requires n <= |chunks| && FreshIds(ids, first, n, points)
    ensures var es := Entries(model, ids, first, chunks, n);
      (forall a, b :: 0 <= a < b < |es| ==> es[a].0 != es[b].0) &&
      (forall a :: 0 <= a < |es| ==> es[a].0 !in points)
  {
    var es := Entries(model, ids, first, chunks, n);
    EntriesAt(model, ids, first, chunks, n);
    forall a, b | 0 <= a < b < |es|
      ensures es[a].0 != es[b].0
    {
      assert es[a].0 == DrawnId(ids, first, a) && es[b].0 == DrawnId(ids, first, b);
    }
    forall a | 0 <= a < |es|
      ensures es[a].0 !in points
    {
      assert es[a].0 == DrawnId(ids, first, a);
    }
  }

  /** Storing under fresh, distinct ids adds one point per chunk and keeps
      every earlier point. */
  lemma StoredAfterKeeps(model: string -> Result<Embedding, string>, ids: nat -> string, first: nat,
                         points: map<string, StoredPoint>, chunks: seq<Chunk>, n: nat)
    requires n <= |chunks| && FreshIds(ids, first, n, points)
    ensures var m := StoredAfter(model, ids, first, points, chunks, n);
      |m| == |points| + n && forall id :: id in points ==> id in m && m[id] == points[id]
  {
    var es := Entries(model, ids, first, chunks, n);
    StoredAfterIsStoreAll(model, ids, first, points, chunks, n);
    EntriesAt(model, ids, first, chunks, n);
    EntriesFresh(model, ids, first, chunks, n, points);
    StoreAllSize(points, es);
    StoreAllKeeps(points, es);
  }

  /** Storing under distinct ids stores chunk `k` under the `k`-th id. */
  lemma {:induction false} StoredAfterHas(model: string -> Result<Embedding, string>, ids: nat -> string, first: nat,
                                          points: map<string, StoredPoint>, chunks: seq<Chunk>, n: nat, k: nat)
    requires k < n <= |chunks| && FreshIds(ids, first, n, points)
    ensures var m := StoredAfter(model, ids, first, points, chunks, n);
      DrawnId(ids, first, k) in m && m[DrawnId(ids, first, k)] == PointOf(model, chunks[k])
    decreases n
  {
    if k < n - 1 {
      StoredAfterHas(model, ids, first, points, chunks, n - 1, k);
      assert DrawnId(ids, first, k) != DrawnId(ids, first, n - 1);
    }
  }

  /** Storing adds no id but the ones drawn. */
  lemma StoredAfterOnly(model: string -> Result<Embedding, string>, ids: nat -> string, first: nat,
                        points: map<string, StoredPoint>, chunks: seq<Chunk>, n: nat)
    requires n <= |chunks|
    ensures var m := StoredAfter(model, ids, first, points, chunks, n);
      forall id :: id in m ==> id in points || exists k :: 0 <= k < n && DrawnId(ids, first, k) == id
  {
    var es := Entries(model, ids, first, chunks, n);
    var m := StoredAfter(model, ids, first, points, chunks, n);
    StoredAfterIsStoreAll(model, ids, first, points, chunks, n);
    EntriesAt(model, ids, first, chunks, n);
    StoreAllOnly(points, es);
    forall id | id in m
      ensures id in points || exists k :: 0 <= k < n && DrawnId(ids, first, k) == id
    {
      if id !in points {
        var k :| 0 <= k < |es| && es[k].0 == id;
        assert DrawnId(ids, first, k) == id;
      }
    }
  }

  /** Storing the embeddable prefix under fresh, distinct ids. */
  lemma StoredAfterFresh(model: string -> Result<Embedding, string>, ids: nat -> string, first: nat,
                         points: map<string, StoredPoint>, chunks: seq<Chunk>, n: nat)
    requires n <= EmbeddablePrefix(model, chunks) && FreshIds(ids, first, n, points)
    ensures GainedOnePerChunk(model, ids, first, n, chunks, points, StoredAfter(model, ids, first, points, chunks, n))
  {
    var m := StoredAfter(model, ids, first, points, chunks, n);
    StoredAfterKeeps(model, ids, first, points, chunks, n);
    forall k | 0 <= k < n
      ensures DrawnId(ids, first, k) in m && m[DrawnId(ids, first, k)] == PointOf(model, chunks[k])
    {
      StoredAfterHas(model, ids, first, points, chunks, n, k);
    }
    StoredAfterOnly(model, ids, first, points, chunks, n);
  }

  /** Under ids that are fresh and distinct, an indexing run adds exactly one
      point per chunk it embedded, under that chunk's id, and keeps every
      earlier point. */
  lemma StoredRunFresh(model: string -> Result<Embedding, string>, ids: nat -> string, first: nat, drawn: nat,
                       pointsBefore: map<string, StoredPoint>, pointsAfter: map<string, StoredPoint>,
                       embeddedBefore: seq<string>, embeddedAfter: seq<string>,
                       chunks: seq<Chunk>, failure: Option<string>)
    requires StoredRun(model, ids, first, drawn, pointsBefore, pointsAfter, embeddedBefore, embeddedAfter, chunks, failure)
    requires first <= drawn && FreshIds(ids, first, drawn - first, pointsBefore)
    ensures GainedOnePerChunk(model, ids, first, drawn - first, chunks, pointsBefore, pointsAfter)
  {
    var n := drawn - first;
    assert n == EmbeddablePrefix(model, chunks);
    assert pointsAfter == StoredAfter(model, ids, first, pointsBefore, chunks, n);
    StoredAfterFresh(model, ids, first, pointsBefore, chunks, n);
  }

  function ProcessorFrame(p: Option<ClaudeProcessor>): set<object> {
    if p.Some? then {p.value} else {}
  }

  class RAGService {
    const embedder: Embedder
    const vectorStore: VectorStore
    const processor: Option<ClaudeProcessor>
    /** The stream `uuid.uuid4()` draws from; `drawn` ids are used up. */
    const newId: nat -> string
    var drawn: nat

    constructor (embedder: Embedder, vectorStore: VectorStore, processor: Option<ClaudeProcessor>, newId: nat -> string)
      ensures this.embedder == embedder && this.vectorStore == vectorStore
      ensures this.processor == processor && this.newId == newId && drawn == 0
    {
      this.embedder := embedder;
      this.vectorStore := vectorStore;
      this.processor := processor;
      this.newId := newId;
      drawn := 0;
    }

    /** The pipeline's state as a value. */
    function State(): PipelineState
      reads vectorStore, ProcessorFrame(processor)
    {
      PipelineState(embedder.model, vectorStore.rank, vectorStore.points,
        if processor.Some? then Some(processor.value.Snapshot()) else None)
    }

    /** `process_query`, with the result `QueryOutcome` gives. Without a
        processor it fails before touching the embedder or the store.
        Otherwise the query is embedded once and, if that succeeds, the store
        is searched once with that vector and limit 5; the generator is only
        called on a non-empty hit list. */
    method ProcessQuery(query: string, userId: Option<string>, chapterContext: Option<string>)
      returns (r: Result<QueryResult, string>)
      modifies embedder, vectorStore, ProcessorFrame(processor)
      ensures r == QueryOutcome(old(State()), query, userId, chapterContext)
      ensures vectorStore.points == old(vectorStore.points)
      ensures processor.None? ==>
        embedder.embedded == old(embedder.embedded) && vectorStore.searches == old(vectorStore.searches)
      ensures processor.Some? ==> embedder.embedded == old(embedder.embedded) + [query]
      ensures processor.Some? && embedder.model(query).Failure? ==>
        vectorStore.searches == old(vectorStore.searches) && unchanged(processor.value)
      ensures processor.Some? && embedder.model(query).Success? ==>
        var hits := vectorStore.rank(old(vectorStore.points), embedder.model(query).value, SearchLimit);
        vectorStore.searches == old(vectorStore.searches) + [(embedder.model(query).value, SearchLimit)] &&
        (hits.Failure? || hits.value == [] ==> unchanged(processor.value))
    {
      if processor.None? {
        return Failure(NoProcessorMessage);
      }
      var p := processor.value;
      var queryEmbedding := embedder.EmbedText(query);
      if queryEmbedding.Failure? {
        return Failure(queryEmbedding.error);
      }
      var similarChunks := vectorStore.SearchSimilar(queryEmbedding.value, SearchLimit);
      if similarChunks.Failure? {
        return Failure(similarChunks.error);
      }
      if similarChunks.value == [] {
        return Success(NoMatch(query));
      }
      var claudeResult := p.GenerateAnswer(query, similarChunks.value, DefaultMaxTokens);
      r := AnsweredFrom(query, userId, chapterContext, similarChunks.value, claudeResult);
    }

    /** `index_content`: the chapter is chunked with the default chunker,
        and the chunks are embedded and stored as `StoredRun` says. A run
        that embeds every chunk reports them all; otherwise the first
        embedding error propagates. */
    method IndexContent(chapterId: string, content: string) returns (r: Result<IndexReport, string>)
      modifies this, embedder, vectorStore
      ensures var chunks := ChunkChapterSpec(DefaultMaxChunkSize, DefaultOverlap, content, chapterId);
        StoredRun(embedder.model, newId, old(drawn), drawn, old(vectorStore.points), vectorStore.points,
          old(embedder.embedded), embedder.embedded, chunks, if r.Success? then None else Some(r.error)) &&
        (r.Success? ==> r.value == Report(chapterId, content, chunks, newId, old(drawn)))
      ensures old(drawn) <= drawn
      ensures FreshIds(newId, old(drawn), drawn - old(drawn), old(vectorStore.points)) ==>
        GainedOnePerChunk(embedder.model, newId, old(drawn), drawn - old(drawn),
          ChunkChapterSpec(DefaultMaxChunkSize, DefaultOverlap, content, chapterId), old(vectorStore.points), vectorStore.points)
      ensures vectorStore.searches == old(vectorStore.searches)
    {
      var chunker := new TextChunker(DefaultMaxChunkSize, DefaultOverlap);
      var chunks := chunker.ChunkChapter(content, chapterId);
      var processedChunks, failure := StoreChunks(chunks);
      if FreshIds(newId, old(drawn), drawn - old(drawn), old(vectorStore.points)) {
        StoredRunFresh(embedder.model, newId, old(drawn), drawn, old(vectorStore.points), vectorStore.points,
          old(embedder.embedded), embedder.embedded, chunks, failure);
      }
      if failure.Some? {
        return Failure(failure.value);
      }
      r := Success(IndexReport(chapterId, |processedChunks|, |content|, processedChunks));
    }

    /** The loop of `index_content` over the chunk list. */
    method StoreChunks(chunks: seq<Chunk>) returns (processedChunks: seq<ProcessedChunk>, failure: Option<string>)
      modifies this, embedder, vectorStore
      ensures StoredRun(embedder.model, newId, old(drawn), drawn, old(vectorStore.points), vectorStore.points,
        old(embedder.embedded), embedder.embedded, chunks, failure)
      ensures failure.None? ==> processedChunks == Processed(newId, old(drawn), chunks, |chunks|)
      ensures vectorStore.searches == old(vectorStore.searches)
    {
      ghost var model, first, points0, embedded0 := embedder.model, drawn, vectorStore.points, embedder.embedded;
      ghost var n := EmbeddablePrefix(model, chunks);
      processedChunks := [];
      var i := 0;
      while i < |chunks|
        invariant i <= n
        invariant drawn == first + i
        invariant embedder.embedded == embedded0 + Contents(chunks, i)
        invariant vectorStore.points == StoredAfter(model, newId, first, points0, chunks, i)
        invariant vectorStore.searches == old(vectorStore.searches)
        invariant processedChunks == Processed(newId, first, chunks, i)
      {
        ghost var embeddedI := embedder.embedded;
        var step := IndexChunk(chunks[i]);
        ChunkStep(model, newId, first, points0, chunks, i, processedChunks, ChunkOutcome(step, drawn, vectorStore.points));
        ContentsStep(chunks, i, embedded0, embeddedI, embedder.embedded);
        if step.Failure? {
          RunEnds(model, newId, first, drawn, points0, vectorStore.points, embedded0, embedder.embedded, chunks, i, Some(step.error));
          return processedChunks, Some(step.error);
        }
        processedChunks := processedChunks + [step.value];
        i := i + 1;
      }
      RunEnds(model, newId, first, drawn, points0, vectorStore.points, embedded0, embedder.embedded, chunks, i, None);
      failure := None;
    }

    /** One pass of the indexing loop: embed the chunk, draw an id, upsert
        the point. */
    method IndexChunk(chunk: Chunk) returns (r: Result<ProcessedChunk, string>)
      modifies this, embedder, vectorStore
      ensures embedder.embedded == old(embedder.embedded) + [chunk.content]
      ensures vectorStore.searches == old(vectorStore.searches)
      ensures ChunkOutcome(r, drawn, vectorStore.points)
        == IndexedChunk(embedder.model, newId, old(drawn), old(vectorStore.points), chunk)
    {
      var contentText := chunk.content;
      var metadata := chunk.metadata;
      var embedding := embedder.EmbedText(contentText);
      if embedding.Failure? {
        return Failure(embedding.error);
      }
      var chunkId := newId(drawn);
      drawn := drawn + 1;
      vectorStore.StoreChunk(chunkId, embedding.value, contentText, metadata);
      r := Success(ProcessedChunk(chunkId, |contentText|, metadata));
    }

    /** `delete_content` only logs: nothing is removed from the store. */
    method DeleteContent(chapterId: string)
      ensures vectorStore.points == old(vectorStore.points)
    {
    }
  }
}
