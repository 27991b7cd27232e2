/** The answer generator (`ClaudeProcessor` in
    backend/ai_pipeline/src/rag/claude_processor.py): it formats the retrieved
    chunks into a context, asks the language model, and derives citations and a
    confidence score from the answer text and the chunks. The model API itself
    is the `api` function the processor is built with. */
module ClaudeProcessing {
  import opened Wrappers
  import opened Text

  /** One retrieved chunk as a dictionary whose keys may all be absent:
      `id`, `content`, `metadata.chapter_id`, `metadata.section_number` and
      `similarity_score`. */
  datatype Retrieved = Retrieved(
    id: Option<string>,
    content: Option<string>,
    chapterId: Option<string>,
    sectionNumber: Option<int>,
    similarity: Option<real>)

  /** The `section` of a citation: the chunk's section number, or the
      string "Unknown" when the metadata has none. */
  datatype Section = SectionNumber(number: int) | UnknownSection

  datatype Citation = Citation(
    sourceNumber: nat,
    chapter: string,
    section: Section,
    similarity: real,
    preview: string,
    chunkId: string)

  const Unknown: string := "Unknown"
  const PreviewLength: nat := 200

  function ContentOf(c: Retrieved): string {
    c.content.GetOr("")
  }

  function SimilarityOf(c: Retrieved): real {
    c.similarity.GetOr(0.0)
  }

  /** The id a chunk without one is given: `chunk_{i}`. */
  function DefaultChunkId(i: nat): string {
    "chunk_" + NatToString(i)
  }

  // ---------------------------------------------------------------------
  // Citations
  // ---------------------------------------------------------------------

  /** `content_preview`: the content when it is short, otherwise its first
      200 characters and an ellipsis. */
  function Preview(content: string): (r: string)
    ensures |r| <= PreviewLength + 3
    ensures |content| <= PreviewLength ==> r == content
    ensures |content| > PreviewLength ==>
      |r| == PreviewLength + 3 && r[..PreviewLength] == content[..PreviewLength] && r[PreviewLength..] == "..."
  {
    if |content| > PreviewLength then content[..PreviewLength] + "..." else content
  }

  function CitationOf(i: nat, c: Retrieved): Citation {
    Citation(
      i + 1,
      c.chapterId.GetOr(Unknown),
      if c.sectionNumber.Some? then SectionNumber(c.sectionNumber.value) else UnknownSection,
      SimilarityOf(c),
      Preview(ContentOf(c)),
      c.id.GetOr(DefaultChunkId(i)))
  }

  /** The list `_extract_citations` builds: one citation per chunk, appended
      in retrieval order. */
  function Citations(chunks: seq<Retrieved>): seq<Citation> {
    Enumerated(chunks, CitationOf)
  }

  /** Exactly one citation per retrieved chunk, in order, numbered from 1,
      with every absent field replaced by its default. */
  lemma CitationsShape(chunks: seq<Retrieved>)
    ensures var r := Citations(chunks);
      |r| == |chunks| &&
      forall i :: 0 <= i < |r| ==>
        r[i].sourceNumber == i + 1 &&
        r[i].chapter == chunks[i].chapterId.GetOr(Unknown) &&
        (chunks[i].sectionNumber.None? <==> r[i].section == UnknownSection) &&
        (chunks[i].sectionNumber.Some? ==> r[i].section == SectionNumber(chunks[i].sectionNumber.value)) &&
        r[i].similarity == chunks[i].similarity.GetOr(0.0) &&
        r[i].preview == Preview(chunks[i].content.GetOr("")) &&
        r[i].chunkId == chunks[i].id.GetOr(DefaultChunkId(i))
  {
    EnumeratedShape(chunks, CitationOf);
  }

  // ---------------------------------------------------------------------
  // Confidence
  // ---------------------------------------------------------------------

  /** An answer the score treats as a refusal: empty, or mentioning that the
      information is "not available" or "not found" (case-insensitively). */
  predicate Declines(answer: string) {
    answer == "" || Contains(Lower(answer), "not available") || Contains(Lower(answer), "not found")
  }

  function SimilaritySum(chunks: seq<Retrieved>): real {
    if chunks == [] then 0.0 else SimilarityOf(chunks[0]) + SimilaritySum(chunks[1..])
  }

  function Min(a: real, b: real): real {
    if a <= b then a else b
  }

  /** `min(len(answer) / 200, 1.0)`. */
  function LengthFactor(answer: string): real {
    Min((|answer| as real) / 200.0, 1.0)
  }

  /** `_calculate_confidence`. There is no lower clamp: negative similarity
      scores give a negative confidence (see `NegativeSimilarityGivesNegativeConfidence`). */
  function Confidence(answer: string, chunks: seq<Retrieved>): (r: real)
    ensures r <= 1.0
    ensures Declines(answer) ==> r == 0.1
    ensures !Declines(answer) && chunks == [] ==> r == 0.2
  {
    if Declines(answer) then 0.1
    else if chunks != [] then
      var average := SimilaritySum(chunks) / (|chunks| as real);
      Min(average * 0.7 + LengthFactor(answer) * 0.3, 1.0)
    else 0.2
  }

  lemma {:induction false} SimilaritySumNonNegative(chunks: seq<Retrieved>)
    requires forall i :: 0 <= i < |chunks| ==> SimilarityOf(chunks[i]) >= 0.0
    ensures SimilaritySum(chunks) >= 0.0
  {
    if chunks != [] {
      assert forall i :: 0 <= i < |chunks[1..]| ==> chunks[1..][i] == chunks[i + 1];
      SimilaritySumNonNegative(chunks[1..]);
    }
  }

  lemma {:induction false} SimilaritySumUniform(chunks: seq<Retrieved>, s: real)
    requires forall i :: 0 <= i < |chunks| ==> SimilarityOf(chunks[i]) == s
    ensures SimilaritySum(chunks) == (|chunks| as real) * s
  {
    if chunks != [] {
      assert forall i :: 0 <= i < |chunks[1..]| ==> chunks[1..][i] == chunks[i + 1];
      SimilaritySumUniform(chunks[1..], s);
    }
  }

  /** With chunks whose scores are all at least 0, the confidence is at least 0. */
  lemma ConfidenceNonNegative(answer: string, chunks: seq<Retrieved>)
    requires forall i :: 0 <= i < |chunks| ==> SimilarityOf(chunks[i]) >= 0.0
    ensures Confidence(answer, chunks) >= 0.0
  {
    if !Declines(answer) && chunks != [] {
      SimilaritySumNonNegative(chunks);
      var n := |chunks| as real;
      assert SimilaritySum(chunks) / n >= 0.0;
    }
  }

  /** When every chunk has the same score `s`, the average is `s` and the
      confidence is `min(0.7 s + 0.3 length_factor, 1)`. */
  lemma ConfidenceUniform(answer: string, chunks: seq<Retrieved>, s: real)
    requires !Declines(answer) && chunks != []
    requires forall i :: 0 <= i < |chunks| ==> SimilarityOf(chunks[i]) == s
    ensures Confidence(answer, chunks) == Min(s * 0.7 + LengthFactor(answer) * 0.3, 1.0)
  {
    SimilaritySumUniform(chunks, s);
    var n := |chunks| as real;
    assert (n * s) / n == s;
    assert SimilaritySum(chunks) / n == s;
  }

  /** One chunk scored -1 and an answer "ok": `0.7 * -1 + 0.3 * 0.01 < 0`. */
  lemma NegativeSimilarityGivesNegativeConfidence()
    ensures Confidence("ok", [Retrieved(None, None, None, None, Some(-1.0))]) < 0.0
  {
    var chunks := [Retrieved(None, None, None, None, Some(-1.0))];
    assert Lower("ok") == "ok";
    assert !Contains("ok", "not available") && !Contains("ok", "not found");
    assert chunks[1..] == [];
    assert SimilaritySum(chunks) == -1.0;
    assert LengthFactor("ok") == 0.01;
  }

  // ---------------------------------------------------------------------
  // Context
  // ---------------------------------------------------------------------

  function SectionText(c: Retrieved): string {
    if c.sectionNumber.Some? then IntToString(c.sectionNumber.value) else Unknown
  }

  /** The first line of the block for chunk `i`: `[SOURCE i+1]:`. */
  function SourceLabel(i: nat): string {
    "\n            [SOURCE " + NatToString(i + 1) + "]:"
  }

  /** The block `_format_context` writes for chunk `i`. `score` prints the
      similarity score (the `:.3f` float format). */
  function Block(i: nat, c: Retrieved, score: real -> string): string {
    SourceLabel(i) + BlockFields(i, c, score)
  }

  function BlockFields(i: nat, c: Retrieved, score: real -> string): string {
    "\n            Content: " + ContentOf(c)
    + "\n            Chapter ID: " + c.chapterId.GetOr(Unknown)
    + "\n            Section: " + SectionText(c)
    + "\n            Similarity Score: " + score(SimilarityOf(c))
    + "\n            Chunk ID: " + c.id.GetOr(DefaultChunkId(i))
    + "\n            ---\n            "
  }

  function BlockMaker(score: real -> string): (nat, Retrieved) -> string {
    (i: nat, c: Retrieved) => Block(i, c, score)
  }

  function FormatContext(chunks: seq<Retrieved>, score: real -> string): string {
    Join(Enumerated(chunks, BlockMaker(score)), "\n")
  }

  /** Block `i` opens with its label `[SOURCE i+1]`. */
  lemma BlockLabel(i: nat, c: Retrieved, score: real -> string)
    ensures StartsWith(Block(i, c, score), SourceLabel(i))
  {
    var tag, fields := SourceLabel(i), BlockFields(i, c, score);
    assert (tag + fields)[..|tag|] == tag;
  }

  /** A further chunk adds a newline and its block at the end of the context. */
  lemma FormatContextSnoc(chunks: seq<Retrieved>, c: Retrieved, score: real -> string)
    requires chunks != []
    ensures FormatContext(chunks + [c], score) == FormatContext(chunks, score) + "\n" + Block(|chunks|, c, score)
  {
    var f := BlockMaker(score);
    assert (chunks + [c])[..|chunks|] == chunks;
    assert Enumerated(chunks + [c], f) == Enumerated(chunks, f) + [f(|chunks|, c)];
    EnumeratedShape(chunks, f);
    JoinSnoc(Enumerated(chunks, f), Block(|chunks|, c, score), "\n");
  }

  // ---------------------------------------------------------------------
  // The processor
  // ---------------------------------------------------------------------

  datatype Client = Client(apiKey: string)

  /** What the messages API returns: the text of each content block, the
      model name and the token usage. */
  datatype Response = Response(content: seq<string>, model: string, inputTokens: nat, outputTokens: nat)

  /** The dictionary `generate_answer` returns. */
  datatype Generation = Generation(
    answer: string,
    citations: seq<Citation>,
    confidence: real,
    model: string,
    inputTokens: nat,
    outputTokens: nat)

  const MissingKeyMessage: string := "CLAUDE_API_KEY environment variable must be set"
  const DefaultMaxTokens: nat := 1000

  /** `self.api_key or os.getenv("CLAUDE_API_KEY")`, kept only when it is
      truthy: the constructor's key wins unless it is absent or empty. */
  function ResolveKey(apiKey: Option<string>, envKey: Option<string>): (r: Option<string>)
    ensures r.Some? <==> (apiKey.Some? && apiKey.value != "") || (envKey.Some? && envKey.value != "")
    ensures r.Some? ==> r.value != "" && (r == apiKey || r == envKey)
    ensures apiKey.Some? && apiKey.value != "" ==> r == apiKey
  {
    if apiKey.Some? && apiKey.value != "" then apiKey
    else if envKey.Some? && envKey.value != "" then envKey
    else None
  }

  /** The cached client after `_get_client`: kept when present, otherwise
      built from the resolved key if there is one. */
  function NextClient(client: Option<Client>, apiKey: Option<string>, envKey: Option<string>): Option<Client> {
    if client.Some? then client
    else if ResolveKey(apiKey, envKey).Some? then Some(Client(ResolveKey(apiKey, envKey).value))
    else None
  }

  /** `response.content[0].text if response.content else ""`. */
  function AnswerText(response: Response): string {
    if response.content != [] then response.content[0] else ""
  }

  function Generated(response: Result<Response, string>, chunks: seq<Retrieved>): Result<Generation, string> {
    match response
    case Failure(e) => Failure(e)
    case Success(resp) =>
      Success(Generation(
        AnswerText(resp), Citations(chunks), Confidence(AnswerText(resp), chunks),
        resp.model, resp.inputTokens, resp.outputTokens))
  }

  /** The fields of a processor, as a value. */
  datatype ProcessorSnapshot = ProcessorSnapshot(
    apiKey: Option<string>,
    envKey: Option<string>,
    client: Option<Client>,
    api: (Client, string, string, nat) -> Result<Response, string>,
    scoreText: real -> string)

  /** What `generate_answer` returns for a processor whose fields are `p`:
      the missing-key error when no client can be had, the API's error when
      the call fails, and otherwise the derived answer. */
  function GenerateSpec(p: ProcessorSnapshot, query: string, chunks: seq<Retrieved>, maxTokens: nat): Result<Generation, string> {
    var c := NextClient(p.client, p.apiKey, p.envKey);
    if c.None? then Failure(MissingKeyMessage)
    else Generated(p.api(c.value, query, FormatContext(chunks, p.scoreText), maxTokens), chunks)
  }

  /** A successful generation answers with the first content block, cites
      every chunk in order and scores the answer against those chunks. */
  lemma GenerateSpecDerives(p: ProcessorSnapshot, query: string, chunks: seq<Retrieved>, maxTokens: nat)
    requires GenerateSpec(p, query, chunks, maxTokens).Success?
    ensures var c := NextClient(p.client, p.apiKey, p.envKey);
      var g := GenerateSpec(p, query, chunks, maxTokens).value;
      c.Some? &&
      p.api(c.value, query, FormatContext(chunks, p.scoreText), maxTokens).Success? &&
      g.answer == AnswerText(p.api(c.value, query, FormatContext(chunks, p.scoreText), maxTokens).value) &&
      |g.citations| == |chunks| &&
      (forall i :: 0 <= i < |chunks| ==> g.citations[i] == CitationOf(i, chunks[i])) &&
      g.confidence == Confidence(g.answer, chunks)
  {
    EnumeratedShape(chunks, CitationOf);
  }

  class ClaudeProcessor {
    const apiKey: Option<string>
    /** The value of `CLAUDE_API_KEY` in the process environment. */
    const envKey: Option<string>
    /** `messages.create` for (client, query, formatted context, max_tokens). */
    const api: (Client, string, string, nat) -> Result<Response, string>
    /** The `:.3f` printing of a similarity score. */
    const scoreText: real -> string
    var client: Option<Client>

    constructor (apiKey: Option<string>, envKey: Option<string>,
                 api: (Client, string, string, nat) -> Result<Response, string>, scoreText: real -> string)
      ensures this.apiKey == apiKey && this.envKey == envKey && this.api == api && this.scoreText == scoreText
      ensures client == None
    {
      this.apiKey := apiKey;
      this.envKey := envKey;
      this.api := api;
      this.scoreText := scoreText;
      client := None;
    }

    function Snapshot(): ProcessorSnapshot
      reads this
    {
      ProcessorSnapshot(apiKey, envKey, client, api, scoreText)
    }

    /** `_get_client`: the client is built at most once and then reused. */
    method GetClient() returns (r: Result<Client, string>)
      modifies this
      ensures client == NextClient(old(client), apiKey, envKey)
      ensures old(client).Some? ==> client == old(client)
      ensures client.Some? ==> r == Success(client.value)
      ensures client.None? ==> r == Failure(MissingKeyMessage)
    {
      if client.None? {
        var key := ResolveKey(apiKey, envKey);
        if key.None? {
          return Failure(MissingKeyMessage);
        }
        client := Some(Client(key.value));
      }
      r := Success(client.value);
    }

    /** The loop of `_extract_citations`; the answer text plays no part. */
    method ExtractCitations(answerText: string, retrievedChunks: seq<Retrieved>) returns (citations: seq<Citation>)
      ensures citations == Citations(retrievedChunks)
    {
      citations := [];
      var i := 0;
      while i < |retrievedChunks|
        invariant 0 <= i <= |retrievedChunks|
        invariant citations == Citations(retrievedChunks[..i])
      {
        EnumeratedPrefix(retrievedChunks, i, CitationOf);
        citations := citations + [CitationOf(i, retrievedChunks[i])];
        i := i + 1;
      }
      assert retrievedChunks[..i] == retrievedChunks;
    }

    /** The loop of `_format_context`, followed by the newline join. */
    method FormatContextOf(retrievedChunks: seq<Retrieved>) returns (context: string)
      ensures context == FormatContext(retrievedChunks, scoreText)
    {
      var formatted: seq<string> := [];
      var i := 0;
      while i < |retrievedChunks|
        invariant 0 <= i <= |retrievedChunks|
        invariant formatted == Enumerated(retrievedChunks[..i], BlockMaker(scoreText))
      {
        EnumeratedPrefix(retrievedChunks, i, BlockMaker(scoreText));
        formatted := formatted + [Block(i, retrievedChunks[i], scoreText)];
        i := i + 1;
      }
      assert retrievedChunks[..i] == retrievedChunks;
      context := Join(formatted, "\n");
    }

    /** `generate_answer`: a missing key or a failing API call propagates as
        a failure; otherwise the answer text is the first content block, and
        citations and confidence are derived from it and the chunks. */
    method GenerateAnswer(query: string, retrievedChunks: seq<Retrieved>, maxTokens: nat) returns (r: Result<Generation, string>)
      modifies this
      ensures client == NextClient(old(client), apiKey, envKey)
      ensures r == GenerateSpec(old(Snapshot()), query, retrievedChunks, maxTokens)
    {
      var context := FormatContextOf(retrievedChunks);
      var c := GetClient();
      if c.Failure? {
        return Failure(c.error);
      }
      var response := api(c.value, query, context, maxTokens);
      if response.Failure? {
        return Failure(response.error);
      }
      var answerText := AnswerText(response.value);
      var citations := ExtractCitations(answerText, retrievedChunks);
      var confidenceScore := Confidence(answerText, retrievedChunks);
      r := Success(Generation(
        answerText, citations, confidenceScore,
        response.value.model, response.value.inputTokens, response.value.outputTokens));
    }
  }
}
