/** The chapter router of backend/src/api/chapter_routes.py: the fixed
    chapter table, the listing and lookup endpoints, and the endpoint that
    indexes a chapter for retrieval. */
module ChapterRoutes {
  import opened Wrappers
  import opened Text
  import opened Http
  import opened Chunking
  import opened RagService

  datatype Chapter = Chapter(
    id: string,
    title: string,
    number: int,
    content: string,
    isPublished: bool,
    createdAt: string,
    updatedAt: string)

  const ChapterDate: string := "2025-12-15T00:00:00Z"
  const NotFoundMessage: string := "Chapter not found"
  const MissingFieldsMessage: string := "chapter_id and content are required"
  const IndexErrorPrefix: string := "Error indexing chapter content: "

  /** The `n`-th entry of the table (counting from 0): chapter `n + 1`,
      published, with its number as its id. */
  function TableEntry(n: nat, title: string): (c: Chapter)
    ensures c.id == NatToString(n + 1) && c.number == n + 1 && c.isPublished
  {
    Chapter(NatToString(n + 1), title, n + 1,
      "This is the content for Chapter " + NatToString(n + 1) + ": " + title + "...",
      true, ChapterDate, ChapterDate)
  }

  const ChapterTitles: seq<string> := [
    "Introduction to Physical AI",
    "Robotics and AI Integration",
    "Sensorimotor Learning",
    "Human-Robot Interaction",
    "Embodied Intelligence",
    "Future of Physical AI"
  ]

  /** `CHAPTERS_DATA`: six published chapters numbered 1 to 6 in order. */
  const ChaptersData: seq<Chapter> := Enumerated(ChapterTitles, TableEntry)

  lemma ChaptersDataShape()
    ensures |ChaptersData| == 6
    ensures forall k :: 0 <= k < 6 ==>
      ChaptersData[k].number == k + 1 && ChaptersData[k].id == NatToString(k + 1) && ChaptersData[k].isPublished
  {
    EnumeratedShape(ChapterTitles, TableEntry);
  }

  // ---------------------------------------------------------------------
  // get_all_chapters
  // ---------------------------------------------------------------------

  /** The comprehension keeping the published chapters, in table order. */
  function Published(table: seq<Chapter>): (r: seq<Chapter>)
    ensures forall c :: c in r ==> c.isPublished
    ensures forall c :: c in table && c.isPublished ==> c in r
    ensures multiset(r) <= multiset(table)
  {
    if table == [] then []
    else
      assert table == [table[0]] + table[1..];
      if table[0].isPublished then [table[0]] + Published(table[1..])
    else Published(table[1..])
  }

  predicate SortedByNumber(s: seq<Chapter>) {
    forall i, j :: 0 <= i < j < |s| ==> s[i].number <= s[j].number
  }

  /** One step of `sorted(..., key=number)`: `c` goes before the first
      chapter whose number is not smaller than its own. */
  function Insert(c: Chapter, s: seq<Chapter>): (r: seq<Chapter>)
    ensures multiset(r) == multiset(s) + multiset{c}
  {
    if s == [] || c.number <= s[0].number then [c] + s
    else
      assert s == [s[0]] + s[1..];
      [s[0]] + Insert(c, s[1..])
  }

  lemma {:induction false} InsertSorted(c: Chapter, s: seq<Chapter>)
    requires SortedByNumber(s)
    ensures SortedByNumber(Insert(c, s))
  {
    if s != [] && c.number > s[0].number {
      var rest := Insert(c, s[1..]);
      InsertSorted(c, s[1..]);
      forall k | 0 <= k < |rest| ensures s[0].number <= rest[k].number {
        assert rest[k] in multiset(rest);
        if rest[k] != c {
          assert rest[k] in multiset(s[1..]);
          assert rest[k] in s[1..];
        }
      }
      ConsSorted(s[0], rest);
    }
  }

  lemma ConsSorted(x: Chapter, s: seq<Chapter>)
    requires SortedByNumber(s)
    requires forall k :: 0 <= k < |s| ==> x.number <= s[k].number
    ensures SortedByNumber([x] + s)
  {
  }

  /** `sorted` by chapter number: an insertion sort that keeps chapters
      with equal numbers in table order. */
  function SortByNumber(s: seq<Chapter>): (r: seq<Chapter>)
    ensures multiset(r) == multiset(s)
  {
    if s == [] then []
    else
      assert s == [s[0]] + s[1..];
      Insert(s[0], SortByNumber(s[1..]))
  }

  lemma {:induction false} SortByNumberSorted(s: seq<Chapter>)
    ensures SortedByNumber(SortByNumber(s))
  {
    if s != [] {
      SortByNumberSorted(s[1..]);
      InsertSorted(s[0], SortByNumber(s[1..]));
    }
  }

  /** Sorting a list already in number order leaves it as it is. */
  lemma {:induction false} SortByNumberOfSorted(s: seq<Chapter>)
    requires SortedByNumber(s)
    ensures SortByNumber(s) == s
  {
    if s != [] {
      assert SortedByNumber(s[1..]);
      SortByNumberOfSorted(s[1..]);
      assert s == [s[0]] + s[1..];
    }
  }

  /** `get_all_chapters` over a chapter table. */
  function ListChapters(table: seq<Chapter>): seq<Chapter> {
    SortByNumber(Published(table))
  }

  /** The listing is the published chapters and only those, each as many
      times as in the table's published part, in ascending number order. */
  lemma ListChaptersSpec(table: seq<Chapter>)
    ensures SortedByNumber(ListChapters(table))
    ensures multiset(ListChapters(table)) == multiset(Published(table))
    ensures forall c :: c in ListChapters(table) <==> c in table && c.isPublished
  {
    var r := ListChapters(table);
    SortByNumberSorted(Published(table));
    forall c ensures c in r <==> c in table && c.isPublished {
      assert c in r <==> c in multiset(r);
      assert c in Published(table) <==> c in multiset(Published(table));
      assert c in Published(table) ==> c in multiset(table);
    }
  }

  /** On the fixed table every chapter is published and the numbers already
      ascend, so the listing is the table itself. */
  lemma ListChaptersData()
    ensures ListChapters(ChaptersData) == ChaptersData
  {
    ChaptersDataShape();
    ListOfNumberedPublished(ChaptersData);
  }

  /** A table of published chapters numbered 1, 2, ... in order is listed
      as it stands. */
  lemma ListOfNumberedPublished(table: seq<Chapter>)
    requires forall k :: 0 <= k < |table| ==> table[k].number == k + 1 && table[k].isPublished
    ensures ListChapters(table) == table
  {
    PublishedOfPublished(table);
    NumberedIsSorted(table);
    SortByNumberOfSorted(table);
  }

  lemma NumberedIsSorted(table: seq<Chapter>)
    requires forall k :: 0 <= k < |table| ==> table[k].number == k + 1
    ensures SortedByNumber(table)
  {
  }

  lemma {:induction false} PublishedOfPublished(table: seq<Chapter>)
    requires forall k :: 0 <= k < |table| ==> table[k].isPublished
    ensures Published(table) == table
  {
    if table != [] {
      assert table == [table[0]] + table[1..];
      PublishedOfPublished(table[1..]);
    }
  }

  // ---------------------------------------------------------------------
  // get_chapter
  // ---------------------------------------------------------------------

  /** The lookup test: the id, or the number written in decimal. */
  predicate Matches(c: Chapter, chapterId: string) {
    c.id == chapterId || IntToString(c.number) == chapterId
  }

  /** The first chapter in table order that matches. */
  function FirstMatch(table: seq<Chapter>, chapterId: string): (r: Option<Chapter>)
    ensures r.Some? ==> r.value in table && Matches(r.value, chapterId)
    ensures r.None? <==> forall k :: 0 <= k < |table| ==> !Matches(table[k], chapterId)
  {
    if table == [] then None
    else if Matches(table[0], chapterId) then Some(table[0])
    else
      var r := FirstMatch(table[1..], chapterId);
      assert forall k :: 1 <= k < |table| ==> table[k] == table[1..][k - 1];
      r
  }

  /** `FirstMatch` is the match at the smallest index. */
  lemma {:induction false} FirstMatchIsFirst(table: seq<Chapter>, chapterId: string, k: nat)
    requires k < |table| && Matches(table[k], chapterId)
    requires forall j :: 0 <= j < k ==> !Matches(table[j], chapterId)
    ensures FirstMatch(table, chapterId) == Some(table[k])
    decreases k
  {
    if k > 0 {
      assert table[1..][k - 1] == table[k];
      FirstMatchIsFirst(table[1..], chapterId, k - 1);
    }
  }

  /** The loop of `get_chapter`: scan the table and stop at the first match. */
  method FindChapter(table: seq<Chapter>, chapterId: string) returns (chapter: Option<Chapter>)
    ensures chapter == FirstMatch(table, chapterId)
  {
    chapter := None;
    var i := 0;
    while i < |table|
      invariant 0 <= i <= |table|
      invariant chapter == None
      invariant FirstMatch(table[i..], chapterId) == FirstMatch(table, chapterId)
    {
      if Matches(table[i], chapterId) {
        chapter := Some(table[i]);
        break;
      }
      assert table[i..][1..] == table[i + 1..];
      i := i + 1;
    }
  }

  /** `get_chapter`: the first matching chapter if it is published;
      otherwise 404, whether nothing matched or the match is unpublished. */
  method GetChapter(table: seq<Chapter>, chapterId: string) returns (r: Result<Chapter, HttpError>)
    ensures var m := FirstMatch(table, chapterId);
      (r.Success? <==> m.Some? && m.value.isPublished) &&
      (r.Success? ==> r.value == m.value) &&
      (r.Failure? ==> r.error == HttpError(NotFound, NotFoundMessage))
  {
    var chapter := FindChapter(table, chapterId);
    if chapter.None? {
      return Failure(HttpError(NotFound, NotFoundMessage));
    }
    if !chapter.value.isPublished {
      return Failure(HttpError(NotFound, NotFoundMessage));
    }
    r := Success(chapter.value);
  }

  /** On the fixed table, chapter `n` is found by its id for 1 <= n <= 6,
      and an id that names no chapter is not found. */
  lemma FirstMatchData(n: nat)
    requires 1 <= n <= 6
    ensures FirstMatch(ChaptersData, NatToString(n)) == Some(TableEntry(n - 1, ChapterTitles[n - 1]))
    ensures FirstMatch(ChaptersData, "7") == None
  {
    ChaptersDataShape();
    forall k | 0 <= k < |ChaptersData|
      ensures !Matches(ChaptersData[k], "7")
      ensures k < n - 1 ==> !Matches(ChaptersData[k], NatToString(n))
    {
      if k < n - 1 && Matches(ChaptersData[k], NatToString(n)) {
        NatToStringInjective(k + 1, n);
      }
    }
    FirstMatchIsFirst(ChaptersData, NatToString(n), n - 1);
    EnumeratedShape(ChapterTitles, TableEntry);
  }

  // ---------------------------------------------------------------------
  // index_chapter_content
  // ---------------------------------------------------------------------

  /** The request body's two fields; `None` is a key that is absent. */
  datatype ChapterData = ChapterData(chapterId: Option<string>, content: Option<string>)

  /** The framework's reply to an exception that is not an `HTTPException`. */
  const UnhandledErrorMessage: string := "Internal Server Error"

  /** `index_chapter_content` as written: its first statement imports
      `rag_service` from the chatbot router, which defines no such name, and
      the `ImportError` escapes before any validation. */
  function IndexChapterContentAsWritten(chapterData: ChapterData): (r: Result<IndexReport, HttpError>)
    ensures r.Failure? && r.error.status == InternalServerError
  {
    Failure(HttpError(InternalServerError, UnhandledErrorMessage))
  }

  /** The request that should be indexed is answered with a 500, and the
      request that should be a 400 is answered with the same 500. */
  lemma IndexAsWrittenNeverIndexes()
    ensures IndexChapterContentAsWritten(ChapterData(Some("1"), Some("Chapter text.")))
         == Failure(HttpError(InternalServerError, UnhandledErrorMessage))
    ensures IndexChapterContentAsWritten(ChapterData(None, None)).error.status != BadRequest
  {
  }

  /** Both fields present and non-empty. */
  predicate HasFields(chapterData: ChapterData) {
    chapterData.chapterId.Some? && chapterData.chapterId.value != "" &&
    chapterData.content.Some? && chapterData.content.value != ""
  }

  /** `index_chapter_content` with a pipeline in scope: a missing or empty
      field is a 400 and nothing is indexed; otherwise the chapter is
      indexed, its report returned unchanged, and an indexing error becomes
      a 500 carrying its message. */
  method IndexChapterContent(rag: RAGService, chapterData: ChapterData) returns (r: Result<IndexReport, HttpError>)
    modifies rag, rag.embedder, rag.vectorStore
    ensures !HasFields(chapterData) ==>
      r == Failure(HttpError(BadRequest, MissingFieldsMessage)) &&
      unchanged(rag, rag.embedder, rag.vectorStore)
    ensures HasFields(chapterData) ==>
      var chapterId, content := chapterData.chapterId.value, chapterData.content.value;
      var chunks := ChunkChapterSpec(DefaultMaxChunkSize, DefaultOverlap, content, chapterId);
      var failure := FirstError(rag.embedder.model, chunks);
      StoredRun(rag.embedder.model, rag.newId, old(rag.drawn), rag.drawn, old(rag.vectorStore.points),
        rag.vectorStore.points, old(rag.embedder.embedded), rag.embedder.embedded, chunks, failure) &&
      (failure.None? ==> r == Success(Report(chapterId, content, chunks, rag.newId, old(rag.drawn)))) &&
      (failure.Some? ==> r == Failure(HttpError(InternalServerError, IndexErrorPrefix + failure.value)))
  {
    if !HasFields(chapterData) {
      return Failure(HttpError(BadRequest, MissingFieldsMessage));
    }
    var result := rag.IndexContent(chapterData.chapterId.value, chapterData.content.value);
    if result.Failure? {
      return Failure(HttpError(InternalServerError, IndexErrorPrefix + result.error));
    }
    r := Success(result.value);
  }
}
