/** The question lifecycle (`QuestionService` in
    backend/src/services/question_service.py): a question is created pending,
    marked processed before it is run through the pipeline, and marked as an
    error if the pipeline fails. */
module QuestionService {
  import opened Wrappers
  import opened Text
  import opened ClaudeProcessing
  import opened RagService

  /** `QuestionStatus` of backend/src/models/question.py. */
  datatype QuestionStatus = Pending | Processed | Error

  function StatusName(s: QuestionStatus): (r: string)
    ensures r in {"pending", "processed", "error"}
  {
    match s
    case Pending => "pending"
    case Processed => "processed"
    case Error => "error"
  }

  lemma StatusNameInjective(a: QuestionStatus, b: QuestionStatus)
    requires StatusName(a) == StatusName(b)
    ensures a == b
  {
  }

  /** `QuestionCreate`: the caller's part of a question. */
  datatype QuestionCreate = QuestionCreate(userId: string, questionText: string, chapterContextId: Option<string>)

  /** A `Question` record; only its status changes after creation. */
  class Question {
    const id: string
    const userId: string
    const questionText: string
    const chapterContextId: Option<string>
    const createdAt: string
    const updatedAt: string
    var status: QuestionStatus

    constructor (id: string, userId: string, questionText: string, chapterContextId: Option<string>,
                 createdAt: string, updatedAt: string, status: QuestionStatus)
      ensures this.id == id && this.userId == userId && this.questionText == questionText
      ensures this.chapterContextId == chapterContextId
      ensures this.createdAt == createdAt && this.updatedAt == updatedAt && this.status == status
    {
      this.id := id;
      this.userId := userId;
      this.questionText := questionText;
      this.chapterContextId := chapterContextId;
      this.createdAt := createdAt;
      this.updatedAt := updatedAt;
      this.status := status;
    }
  }

  /** The dictionary `process_question` returns. */
  datatype ProcessedQuestion = ProcessedQuestion(
    question: Question,
    answer: string,
    citations: seq<Citation>,
    confidenceScore: real,
    status: QuestionStatus)

  /** `validate_question`: at least three characters once surrounding
      whitespace is stripped (an empty text has none). */
  function ValidateQuestion(questionText: string): (ok: bool)
    ensures ok <==> |Strip(questionText)| >= 3
    ensures ok ==> questionText != "" && !AllSpace(questionText)
  {
    if questionText == "" || |Strip(questionText)| < 3 then false else true
  }

  /** A valid question is never one the ask endpoint rejects as empty, and a
      question of at most two characters is never valid. */
  lemma ValidIsNonBlank(questionText: string)
    ensures ValidateQuestion(questionText) ==> !AllSpace(questionText)
    ensures |questionText| < 3 ==> !ValidateQuestion(questionText)
  {
  }

  /** `get_question_history`: no history is kept. */
  function QuestionHistory(userId: string, limit: nat): (r: seq<ProcessedQuestion>)
    ensures r == []
  {
    []
  }

  class QuestionService {
    const ragService: RAGService

    constructor (ragService: RAGService)
      ensures this.ragService == ragService
    {
      this.ragService := ragService;
    }

    /** `create_question`: a fresh pending question with the caller's user,
        text and chapter context. `id` stands for `uuid4()`; `createdAt` and
        `updatedAt` for the two separate `utcnow()` readings. */
    method CreateQuestion(questionData: QuestionCreate, id: string, createdAt: string, updatedAt: string)
      returns (question: Question)
      ensures fresh(question)
      ensures question.id == id && question.createdAt == createdAt && question.updatedAt == updatedAt
      ensures question.userId == questionData.userId
      ensures question.questionText == questionData.questionText
      ensures question.chapterContextId == questionData.chapterContextId
      ensures question.status == Pending
    {
      question := new Question(id, questionData.userId, questionData.questionText,
        questionData.chapterContextId, createdAt, updatedAt, Pending);
    }

    /** `process_question`: the question's text, user id and chapter context
        go to the pipeline. On success the answer, citations and confidence
        are copied and the question is processed; on failure it is marked as
        an error and the failure propagates. */
    method ProcessQuestion(question: Question) returns (r: Result<ProcessedQuestion, string>)
      modifies question, ragService.embedder, ragService.vectorStore, ProcessorFrame(ragService.processor)
      ensures var outcome := QueryOutcome(old(ragService.State()), question.questionText,
                               Some(question.userId), question.chapterContextId);
        (outcome.Failure? ==> r == Failure(outcome.error) && question.status == Error) &&
        (outcome.Success? ==>
          question.status == Processed &&
          r == Success(ProcessedQuestion(question, outcome.value.AnswerText(), outcome.value.CitationList(),
                                         outcome.value.ConfidenceScore(), Processed)))
    {
      question.status := Processed;
      var ragResult := ragService.ProcessQuery(question.questionText, Some(question.userId), question.chapterContextId);
      if ragResult.Failure? {
        question.status := Error;
        return Failure(ragResult.error);
      }
      r := Success(ProcessedQuestion(question, ragResult.value.AnswerText(), ragResult.value.CitationList(),
                                     ragResult.value.ConfidenceScore(), Processed));
    }
  }
}
