/** The chatbot router of backend/src/api/chatbot_routes.py: building the
    pipeline for a request, the `/chatbot/ask` endpoint, and the question
    history endpoint. */
module ChatbotRoutes {
  import opened Wrappers
  import opened Text
  import opened Http
  import opened ClaudeProcessing
  import opened RagService

  const EmptyQuestionMessage: string := "Question cannot be empty"
  const ProcessingErrorMessage: string := "Error processing your question"

  /** `QuestionRequest`: an absent `chapter_id` is `None`;
      `include_citations` defaults to true. */
  datatype QuestionRequest = QuestionRequest(question: string, chapterId: Option<string>, includeCitations: bool)

  datatype QuestionResponse = QuestionResponse(
    id: string,
    question: string,
    answer: string,
    citations: seq<Citation>,
    confidenceScore: real,
    createdAt: string)

  /** A question is rejected as empty when it is empty or only white space. */
  predicate Blank(question: string) {
    Strip(question) == ""
  }

  lemma BlankIsAllSpace(question: string)
    ensures Blank(question) <==> AllSpace(question)
    ensures Blank("")
  {
  }

  /** What `ask_question` answers for `request`, given what the pipeline's
      `process_query` returns, the fresh response id and the current time. */
  function Ask(request: QuestionRequest, outcome: Result<QueryResult, string>, id: string, now: string): (r: Result<QuestionResponse, HttpError>)
    ensures Blank(request.question) ==> r == Failure(HttpError(BadRequest, EmptyQuestionMessage))
    ensures !Blank(request.question) && outcome.Failure? ==> r == Failure(HttpError(InternalServerError, ProcessingErrorMessage))
    ensures r.Success? <==> !Blank(request.question) && outcome.Success?
    ensures r.Success? ==>
      r.value.id == id && r.value.question == request.question && r.value.createdAt == now &&
      r.value.answer == outcome.value.AnswerText() &&
      r.value.confidenceScore == outcome.value.ConfidenceScore() &&
      r.value.citations == (if request.includeCitations then outcome.value.CitationList() else [])
  {
    if Blank(request.question) then Failure(HttpError(BadRequest, EmptyQuestionMessage))
    else match outcome
      case Failure(_) => Failure(HttpError(InternalServerError, ProcessingErrorMessage))
      case Success(result) =>
        Success(QuestionResponse(id, request.question, result.AnswerText(),
          if request.includeCitations then result.CitationList() else [],
          result.ConfidenceScore(), now))
  }

  /** Without a processor every non-blank question is a 500: the pipeline
      refuses the query before embedding it. */
  lemma AskWithoutProcessor(s: PipelineState, request: QuestionRequest, id: string, now: string)
    requires s.processor.None?
    requires !Blank(request.question)
    ensures Ask(request, QueryOutcome(s, request.question, None, request.chapterId), id, now)
         == Failure(HttpError(InternalServerError, ProcessingErrorMessage))
  {
  }

  /** A successful answer with citations requested carries one citation per
      retrieved chunk, numbered from 1; when nothing is retrieved it is the
      fixed no-match reply with no citations. */
  lemma {:induction false} AskCitations(s: PipelineState, request: QuestionRequest, id: string, now: string)
    requires Ask(request, QueryOutcome(s, request.question, None, request.chapterId), id, now).Success?
    requires request.includeCitations
    ensures s.processor.Some? && s.model(request.question).Success?
    ensures var hits := s.rank(s.points, s.model(request.question).value, SearchLimit);
      var resp := Ask(request, QueryOutcome(s, request.question, None, request.chapterId), id, now).value;
      hits.Success? &&
      |resp.citations| == |hits.value| &&
      (forall i :: 0 <= i < |resp.citations| ==> resp.citations[i].sourceNumber == i + 1) &&
      (hits.value == [] ==> resp.answer == NoMatchAnswer && resp.confidenceScore == NoMatchConfidence)
  {
    var outcome := QueryOutcome(s, request.question, None, request.chapterId);
    QueryOutcomeCases(s, request.question, None, request.chapterId);
    var hits := s.rank(s.points, s.model(request.question).value, SearchLimit).value;
    if hits != [] {
      var p := s.processor.value;
      var g := GenerateSpec(p, request.question, hits, DefaultMaxTokens);
      GenerateSpecDerives(p, request.question, hits, DefaultMaxTokens);
      CitationsShape(hits);
      assert g.value.citations == Citations(hits);
    }
  }

  /** `get_rag_service`: a fresh pipeline over an empty store. A processor is
      built, with no key of its own, exactly when `CLAUDE_API_KEY` is set and
      non-empty; the embedding model, the store's ranking, the model API and
      the id source stand in for the external clients. */
  method GetRagService(envKey: Option<string>,
                       model: string -> Result<Embedding, string>,
                       rank: (map<string, StoredPoint>, Embedding, nat) -> Result<seq<Retrieved>, string>,
                       api: (Client, string, string, nat) -> Result<Response, string>,
                       scoreText: real -> string,
                       newId: nat -> string)
    returns (rag: RAGService)
    ensures fresh(rag) && fresh(rag.embedder) && fresh(rag.vectorStore)
    ensures rag.embedder.model == model && rag.embedder.embedded == []
    ensures rag.vectorStore.rank == rank && rag.vectorStore.points == map[] && rag.vectorStore.searches == []
    ensures rag.newId == newId && rag.drawn == 0
    ensures rag.processor.Some? <==> envKey.Some? && envKey.value != ""
    ensures rag.processor.Some? ==>
      var p := rag.processor.value;
      fresh(p) && p.apiKey == None && p.envKey == envKey && p.api == api &&
      p.scoreText == scoreText && p.client == None
  {
    var embedder := new Embedder(model);
    var vectorStore := new VectorStore(rank);
    var processor: Option<ClaudeProcessor> := None;
    if envKey.Some? && envKey.value != "" {
      var p := new ClaudeProcessor(None, envKey, api, scoreText);
      processor := Some(p);
    }
    rag := new RAGService(embedder, vectorStore, processor, newId);
  }

  /** A processor built by `get_rag_service` always finds a key: the
      `ValueError` handler there cannot be reached, and the first
      `_get_client` call builds a client from the environment's key. */
  lemma ServiceProcessorHasKey(envKey: Option<string>)
    requires envKey.Some? && envKey.value != ""
    ensures NextClient(None, None, envKey) == Some(Client(envKey.value))
  {
  }

  /** `ask_question`: a blank question is refused before the pipeline is
      touched; otherwise the question and chapter go to `process_query`
      (with no user id) and any failure there becomes a 500. `id` and `now`
      stand for `uuid4()` and `utcnow().isoformat()`. */
  method AskQuestion(request: QuestionRequest, rag: RAGService, id: string, now: string)
    returns (r: Result<QuestionResponse, HttpError>)
    modifies rag.embedder, rag.vectorStore, ProcessorFrame(rag.processor)
    ensures r == Ask(request, QueryOutcome(old(rag.State()), request.question, None, request.chapterId), id, now)
    ensures Blank(request.question) ==> unchanged(rag.embedder, rag.vectorStore) && unchanged(ProcessorFrame(rag.processor))
    ensures rag.vectorStore.points == old(rag.vectorStore.points)
  {
    if Strip(request.question) == "" {
      return Failure(HttpError(BadRequest, EmptyQuestionMessage));
    }
    var result := rag.ProcessQuery(request.question, None, request.chapterId);
    if result.Failure? {
      return Failure(HttpError(InternalServerError, ProcessingErrorMessage));
    }
    var citations := if request.includeCitations then result.value.CitationList() else [];
    r := Success(QuestionResponse(id, request.question, result.value.AnswerText(), citations,
                                  result.value.ConfidenceScore(), now));
  }

  /** `/chatbot/history`: no history is kept. */
  function History(): (r: seq<QuestionResponse>)
    ensures r == []
  {
    []
  }
}
