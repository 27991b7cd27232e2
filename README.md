# Physical AI textbook: retrieval-augmented Q&A backend, in Dafny

This project models the question-answering core of an online textbook on
physical AI and proves properties of that model. The core has these parts:

- **Text chunker** (`TextChunker`). It cuts a chapter into paragraphs on
  blank lines. A paragraph that fits is kept whole. A longer one is split into
  sentences, and the sentences are packed greedily into sub-chunks. Each new
  sub-chunk starts with an overlap tail of the buffer it follows. The chunks
  are then numbered.
- **Answer post-processing** (`ClaudeProcessor`). It builds the context
  block, the citation list and the confidence score for an answer. It also
  caches the model client.
- **Retrieval pipeline** (`RAGService`). A query is embedded, the vector store
  is searched, and the processor answers over the hits. Indexing chunks a
  chapter, then embeds and upserts every chunk.
- **Question lifecycle** (`QuestionService`). Questions are created, validated
  and processed; their status moves from pending to processed or error.
- **HTTP routers**:
  - the chatbot router: ask and history;
  - the chapter router: list, look up and index over a fixed table of six
    chapters;
  - the authentication router: register, login and `/me` over the in-memory
    user table.
- **Front end** (`authReducer` of the authentication context). The reducer
  and the action sequences that `login`, `register`, `logout` and
  `clearError` dispatch.

Files and modules:

| file | module | models |
|---|---|---|
| `wrappers.dfy` | `Wrappers` | `Option` (an absent key or `None`) and `Result` (a raised exception) |
| `text.dfy` | `Text` | the Python string operations the core uses: `isspace`, `strip`, `split('\n\n')`, `" ".join`, `str(int)` |
| `http.dfy` | `Http` | an `HTTPException`: status code and detail |
| `chunker.dfy` | `Chunking` | `TextChunker`: a class whose methods are proved against specification functions |
| `claude_processor.dfy` | `ClaudeProcessing` | the citation, confidence and context functions, and the `ClaudeProcessor` class with its cached client |
| `rag_service.dfy` | `RagService` | `Embedder`, `VectorStore` and `RAGService` as classes |
| `question_service.dfy` | `QuestionService` | `Question` and `QuestionService` as classes |
| `chatbot_routes.dfy` | `ChatbotRoutes` | `ask_question`, `get_rag_service`, the history endpoint |
| `chapter_routes.dfy` | `ChapterRoutes` | the chapter table, `get_all_chapters`, `get_chapter`, `index_chapter_content` |
| `auth_routes.dfy` | `AuthRoutes` | `USERS_DB` as the `UserStore` class, `register_user`, `login_user`, `/me` |
| `auth_context.dfy` | `AuthContext` | `authReducer` and the provider's dispatch sequences |

External services are parameters of the model:

- the embedding model: `string -> Result<Embedding, string>`;
- the vector store's similarity ranking;
- the Anthropic messages API;
- `uuid4`, as an id stream `nat -> string` with a counter of ids drawn;
- JWT encoding and decoding;
- the clock, as one string per `utcnow()` reading;
- the environment variable `CLAUDE_API_KEY`, as an `Option<string>`.

Where an operation calls into one of them, ghost logs (`embedded`,
`searches`) record which calls were made and with what arguments.

Where the program's own names and comments suggest more than its code does,
the model follows the code:

- A packed sub-chunk can be `max_chunk_size + 1` long. The parameter name
  `max_chunk_size` suggests a limit, but the size test at
  backend/ai_pipeline/src/chunking/chunker.py:78 does not count the space that
  joins the sentence to the buffer, so the limit is exceeded by one
  (`BoundIsReached`).
- Confidence has no lower clamp. The answer model declares
  `confidence_score: float  # 0.0-1.0` (backend/src/models/answer.py:15), but
  a negative similarity score gives a negative confidence
  (`NegativeSimilarityGivesNegativeConfidence`).
- The sentence splitter drops the punctuation it splits on, as
  `re.split(r'[.!?]+\s+', ...)` does (`PunctuationIsDropped`).

## Model

| member | source | states |
|---|---|---|
| `Text.TrimStart` | backend/ai_pipeline/src/chunking/chunker.py:73 | the result is no longer than the input and does not start with white space |
| `Text.TrimStartCutsSpace` | backend/ai_pipeline/src/chunking/chunker.py:73 | every character `lstrip` removes is white space |
| `Text.TrimStartIsSuffix` | backend/ai_pipeline/src/chunking/chunker.py:73 | `lstrip` returns a suffix of its input |
| `Text.TrimEnd` | backend/ai_pipeline/src/chunking/chunker.py:73 | the result is no longer than the input and does not end with white space |
| `Text.TrimEndCutsSpace` | backend/ai_pipeline/src/chunking/chunker.py:73 | every character `rstrip` removes is white space |
| `Text.TrimEndIsPrefix` | backend/ai_pipeline/src/chunking/chunker.py:73 | `rstrip` returns a prefix of its input |
| `Text.Strip` | backend/ai_pipeline/src/chunking/chunker.py:26 | `strip()` is empty exactly when the input is all white space; otherwise it begins and ends with a non-space |
| `Text.TrimStartAt` | backend/ai_pipeline/src/chunking/chunker.py:73 | with `m` leading spaces followed by a non-space (or the end), `lstrip` drops exactly those `m` characters |
| `Text.StripStripped` | backend/ai_pipeline/src/chunking/chunker.py:80 | stripping an already stripped string changes nothing |
| `Text.StripIsTrimStart` | backend/ai_pipeline/src/chunking/chunker.py:80 | when a string ends in a non-space, `strip` is `lstrip` |
| `Text.TrimStartAppend` | backend/ai_pipeline/src/chunking/chunker.py:86 | `lstrip(x + y)` is `lstrip(x) + y` when `x` is not all white space |
| `Text.TrimStartKeepsSuffix` | backend/ai_pipeline/src/chunking/chunker.py:80 | a suffix that starts with a non-space survives `lstrip` |
| `Text.EnumeratedShape` | backend/ai_pipeline/src/rag/claude_processor.py:142 | a list built by a `for i, x in enumerate(xs)` loop (here and at line 90) has one element per input, the `i`-th made from index `i` and `xs[i]`; the model also writes the literal chapter table as such a list, one entry per title |
| `Text.SplitOnBlankLine` | backend/ai_pipeline/src/chunking/chunker.py:26 | `split('\n\n')` gives at least one piece |
| `Text.SplitOnBlankLineJoin` | backend/ai_pipeline/src/chunking/chunker.py:26 | joining the pieces with `'\n\n'` gives the text back |
| `Text.SplitOnBlankLineBlank` | backend/ai_pipeline/src/chunking/chunker.py:26 | every piece of an all-white-space text is all white space |
| `Text.SplitOnBlankLineNonBlank` | backend/ai_pipeline/src/chunking/chunker.py:26 | some piece of a text that is not all white space is not all white space either |
| `Text.NatToString` | backend/src/api/auth_routes.py:113 | `str(n)` is a non-empty string, one digit long exactly when `n < 10` |
| `Text.NatToStringInjective` | backend/src/api/auth_routes.py:113 | distinct numbers give distinct decimal strings |
| `Chunking.TerminatorRun` | backend/ai_pipeline/src/chunking/chunker.py:67 | the `[.!?]+` run starting at `i` stays inside the text |
| `Chunking.SpaceRun` | backend/ai_pipeline/src/chunking/chunker.py:67 | the `\s+` run starting at `i` stays inside the text and ends on white space |
| `Chunking.SeparatorAt` | backend/ai_pipeline/src/chunking/chunker.py:67 | a separator match at `i` stays inside the text and ends on white space |
| `Chunking.NoSeparatorStep` | backend/ai_pipeline/src/chunking/chunker.py:67 | where no separator matches, the scan advances by at least one character |
| `Chunking.SplitFrom` | backend/ai_pipeline/src/chunking/chunker.py:67 | the split from position `i` gives at least one piece; if the text ends in a non-space, the last piece ends in that character |
| `Chunking.SplitSentences` | backend/ai_pipeline/src/chunking/chunker.py:67 | `re.split(r'[.!?]+\s+', text)` gives at least one piece; if the text ends in a non-space, so does the last piece |
| `Chunking.PunctuationIsDropped` | backend/ai_pipeline/src/chunking/chunker.py:67 | `x + ". " + y` with no terminators in `x` or `y` splits into exactly `[x, y]`: the full stop is gone |
| `Chunking.DotSpaceSeparator` | backend/ai_pipeline/src/chunking/chunker.py:67 | `". "` followed by a non-space is a separator of length two |
| `Chunking.SeparatorStep` | backend/ai_pipeline/src/chunking/chunker.py:67 | a separator ends the current piece, and the split goes on after it |
| `Chunking.PlainCharStep` | backend/ai_pipeline/src/chunking/chunker.py:67 | a character that is not a terminator goes into the current piece |
| `Chunking.SplitFromNoTerminators` | backend/ai_pipeline/src/chunking/chunker.py:67 | a stretch without terminators all goes into the current piece |
| `Chunking.PlainTail` | backend/ai_pipeline/src/chunking/chunker.py:67 | the rest of a text without terminators is a single piece |
| `Chunking.KeepStripped` | backend/ai_pipeline/src/chunking/chunker.py:26 | the comprehension `[p.strip() for p in ... if p.strip()]` keeps only non-empty stripped strings |
| `Chunking.KeepStrippedSnoc` | backend/ai_pipeline/src/chunking/chunker.py:72-76 | filtering one more element adds its stripped form exactly when that form is non-empty |
| `Chunking.SeedOfExtend` | backend/ai_pipeline/src/chunking/chunker.py:83-90 | a buffer seeded by one of the sentences so far is still seeded by one after more sentences arrive |
| `Chunking.SaveKeepsBound` | backend/ai_pipeline/src/chunking/chunker.py:80 | stripping a buffer before saving it keeps it non-empty and keeps its bound, or its seeded shape |
| `Chunking.SavedOkExtend` | backend/ai_pipeline/src/chunking/chunker.py:80 | a list of saved chunks that was acceptable stays acceptable after more sentences arrive |
| `Chunking.BlankStepInv` | backend/ai_pipeline/src/chunking/chunker.py:73-75 | a sentence that strips to nothing leaves the loop state, and its invariant, as they were |
| `Chunking.NonBlankStepInv` | backend/ai_pipeline/src/chunking/chunker.py:72-93 | a step that puts a non-empty sentence into the buffer keeps the loop invariant |
| `Chunking.SavedOkSnoc` | backend/ai_pipeline/src/chunking/chunker.py:80 | saving a non-empty buffer that is within bound or seeded keeps the saved list acceptable |
| `Chunking.ReseedSeeds` | backend/ai_pipeline/src/chunking/chunker.py:83-90 | a reseeded buffer (the overlap tail, a space and the sentence, or the sentence alone) ends with the whole sentence and is at most the tail and a space longer |
| `Chunking.SaveStepInv` | backend/ai_pipeline/src/chunking/chunker.py:78-90 | the save-and-reseed branch keeps the loop invariant |
| `Chunking.AppendStepInv` | backend/ai_pipeline/src/chunking/chunker.py:91-93 | the append branch keeps the loop invariant: appending happens only while `current_length + len(sentence) <= max_chunk_size`, so the buffer stays within `max_chunk_size + 1` |
| `Chunking.AbsorbKeepsInv` | backend/ai_pipeline/src/chunking/chunker.py:72-93 | one iteration of the loop of `_split_large_text` keeps the loop invariant |
| `Chunking.AbsorbAllInv` | backend/ai_pipeline/src/chunking/chunker.py:72-93 | the invariant holds after every iteration, for every overlap |
| `Chunking.PackBound` | backend/ai_pipeline/src/chunking/chunker.py:78-97 | every sub-chunk is non-empty, and it is at most `max_chunk_size + 1` long or is a buffer seeded over the limit: one whole sentence, after at most an overlap tail and a space, saved untruncated |
| `Chunking.SeedsNoOverlap` | backend/ai_pipeline/src/chunking/chunker.py:88-90 | with no overlap, a seeded chunk is exactly one stripped sentence |
| `Chunking.PackBoundNoOverlap` | backend/ai_pipeline/src/chunking/chunker.py:78-97 | with no overlap, every sub-chunk is non-empty and is at most `max_chunk_size + 1` long or is a single sentence |
| `Chunking.PackNonEmpty` | backend/ai_pipeline/src/chunking/chunker.py:95-97 | sentences that are not all blank give at least one sub-chunk |
| `Chunking.LastNonBlankKept` | backend/ai_pipeline/src/chunking/chunker.py:73-75 | a list whose last sentence ends in a non-space is not all blank |
| `Chunking.SplitLargeNonEmpty` | backend/ai_pipeline/src/chunking/chunker.py:63-99 | a text that ends in a non-space gives at least one sub-chunk |
| `Chunking.NoOverlapBlank` | backend/ai_pipeline/src/chunking/chunker.py:73-75 | with no overlap, a blank sentence keeps the reconstruction invariant |
| `Chunking.NoOverlapFirst` | backend/ai_pipeline/src/chunking/chunker.py:92 | with no overlap, the first sentence seeds the empty buffer and keeps the invariant |
| `Chunking.NoOverlapSave` | backend/ai_pipeline/src/chunking/chunker.py:88-90 | with no overlap, saving and reseeding with the sentence keeps the invariant |
| `Chunking.NoOverlapAppend` | backend/ai_pipeline/src/chunking/chunker.py:91-93 | with no overlap, appending the sentence keeps the invariant |
| `Chunking.AbsorbNoOverlap` | backend/ai_pipeline/src/chunking/chunker.py:72-93 | with no overlap, one iteration keeps the invariant: the pieces joined by spaces equal the non-empty stripped sentences joined by spaces |
| `Chunking.AbsorbAllNoOverlap` | backend/ai_pipeline/src/chunking/chunker.py:72-93 | with no overlap, that invariant holds after every iteration |
| `Chunking.PackNoOverlapReconstructs` | backend/ai_pipeline/src/chunking/chunker.py:72-97 | with no overlap, the sub-chunks joined by single spaces equal the non-empty stripped sentences joined by single spaces: nothing lost, nothing duplicated |
| `Chunking.TailOfTrimmed` | backend/ai_pipeline/src/chunking/chunker.py:85-86 | the overlap tail, less its leading white space, is the same whether it is taken before or after stripping the buffer |
| `Chunking.CarriesSnoc` | backend/ai_pipeline/src/chunking/chunker.py:80-87 | a chunk that starts with the previous chunk's tail and a space extends a list that carries its overlaps |
| `Chunking.TrimmedSeed` | backend/ai_pipeline/src/chunking/chunker.py:86 | stripping the leading white space of `tail + " " + sentence` leaves a string that starts with the stripped tail and a space |
| `Chunking.SeedStartsWithTail` | backend/ai_pipeline/src/chunking/chunker.py:85-86 | the reseeded buffer starts with the tail of the saved (stripped) chunk and a space |
| `Chunking.OverlapSave` | backend/ai_pipeline/src/chunking/chunker.py:80-87 | with overlap, saving and reseeding keeps the overlap invariant |
| `Chunking.OverlapAppend` | backend/ai_pipeline/src/chunking/chunker.py:91-93 | with overlap, appending keeps the overlap invariant |
| `Chunking.AbsorbOverlap` | backend/ai_pipeline/src/chunking/chunker.py:72-93 | with overlap, one iteration keeps the overlap invariant |
| `Chunking.AbsorbAllOverlap` | backend/ai_pipeline/src/chunking/chunker.py:72-93 | with overlap, the overlap invariant holds after every iteration |
| `Chunking.PackOverlapCarries` | backend/ai_pipeline/src/chunking/chunker.py:80-97 | with overlap, every sub-chunk after the first starts with the last `min(overlap, len)` characters of the previous one, less leading white space, then a space |
| `Chunking.BuffersAt` | backend/ai_pipeline/src/chunking/chunker.py:83-90 | for any grouping, buffer 0 is its group of sentences joined by spaces, and buffer `k+1` is the tail of the unstripped buffer `k`, a space, then group `k+1` joined by spaces (without overlap, just its group) |
| `Chunking.PartialFull` | backend/ai_pipeline/src/chunking/chunker.py:89-91 | the buffer after all the sentences of group `k` is buffer `k` |
| `Chunking.GreedySave` | backend/ai_pipeline/src/chunking/chunker.py:78-88 | starting a new group with a sentence that does not fit the last buffer keeps the grouping greedy |
| `Chunking.GreedyAppendFits` | backend/ai_pipeline/src/chunking/chunker.py:78-91 | after appending a sentence that fits the last buffer, every non-head sentence of every group fitted the buffer it joined |
| `Chunking.GreedyAppendBreaks` | backend/ai_pipeline/src/chunking/chunker.py:78-91 | appending a sentence to the last group moves no group boundary: each later head still overflowed the buffer before it |
| `Chunking.GreedyAppend` | backend/ai_pipeline/src/chunking/chunker.py:78-91 | appending a sentence that fits the last buffer to the last group keeps the grouping greedy |
| `Chunking.PackRebuilds` | backend/ai_pipeline/src/chunking/chunker.py:62-97 | for any overlap, the kept sentences fall in order into non-empty groups, and sub-chunk `k` is buffer `k` of those groups, stripped: no sentence is lost, repeated or reordered. The groups are the ones the size test at line 78 draws (`Greedy`): every sentence after the first of its group fitted, `len(buffer so far) + len(sentence) <= max_chunk_size`, and the head of every later group is a sentence that did not fit the whole previous buffer |
| `Chunking.BoundIsReached` | backend/ai_pipeline/src/chunking/chunker.py:78 | with `max_chunk_size` 3, the sentences "ab" and "c" are packed into "ab c", four characters: the bound `max_chunk_size + 1` is attained |
| `Chunking.KeepStrippedEmpty` | backend/ai_pipeline/src/chunking/chunker.py:26 | the comprehension is empty exactly when every piece is all white space |
| `Chunking.ParagraphsEmpty` | backend/ai_pipeline/src/chunking/chunker.py:26 | a text yields no paragraphs exactly when it is empty or all white space |
| `Chunking.SubChunkerSplitsWell` | backend/ai_pipeline/src/chunking/chunker.py:45-59 | `_split_large_text` gives every long stripped paragraph at least one sub-chunk and never an empty one |
| `Chunking.ParagraphChunksFacts` | backend/ai_pipeline/src/chunking/chunker.py:33-59 | each paragraph gives at least one chunk. A paragraph that fits gives exactly one "paragraph" chunk, whose content is the paragraph; a longer one gives one "sub_chunk" chunk per sub-chunk, the `i`-th holding sub-chunk `i`. Each chunk has `original_length` the paragraph's length and consecutive ids from the running counter |
| `Chunking.ContentsOfConcat` | backend/ai_pipeline/src/chunking/chunker.py:40-59 | the contents of appended chunk lists are the appended contents |
| `Chunking.ChunkParagraphsContents` | backend/ai_pipeline/src/chunking/chunker.py:29-59 | the chunk contents, in order, are each paragraph's pieces in paragraph order: a fitting paragraph once, whole, a long one as its sub-chunks; nothing is dropped, repeated or reordered |
| `Chunking.WellNumberedConcat` | backend/ai_pipeline/src/chunking/chunker.py:29-59 | the numbering facts of the earlier paragraphs and of the next one combine: the ids go on consecutively |
| `Chunking.ChunkParagraphsFacts` | backend/ai_pipeline/src/chunking/chunker.py:29-61 | over stripped non-empty paragraphs, no paragraphs give no chunks and some give some. The ids run 0, 1, 2, ... in emission order; every chunk is non-empty and carries the chapter id and its paragraph's length and kind |
| `Chunking.ChunkTextFacts` | backend/ai_pipeline/src/chunking/chunker.py:21-61 | `chunk_text` gives no chunks exactly when the text is empty or all white space. Otherwise every chunk is numbered, non-empty, and traced to its paragraph as above, and the chunk contents are exactly the paragraphs' pieces in order (`ChunkParagraphsContents`) |
| `Chunking.SectionedFacts` | backend/ai_pipeline/src/chunking/chunker.py:107-119 | `chunk_chapter` keeps the count, order and content. It gives chunk `i` the section number `i+1` and every chunk the same total, and leaves the other metadata as it was |
| `Chunking.TextChunker.constructor` | backend/ai_pipeline/src/chunking/chunker.py:13-19 | the chunker keeps the size limit and the overlap it is given |
| `Chunking.TextChunker.ChunkText` | backend/ai_pipeline/src/chunking/chunker.py:21-61 | the loop over paragraphs, with its `chunk_id` counter, computes the specification of `chunk_text` |
| `Chunking.TextChunker.AppendParagraph` | backend/ai_pipeline/src/chunking/chunker.py:31-59 | one pass over a paragraph appends that paragraph's chunks, numbered on from the chunks so far: one "paragraph" chunk within the limit, else one "sub_chunk" per piece of the split |
| `Chunking.TextChunker.AppendSubChunks` | backend/ai_pipeline/src/chunking/chunker.py:45-59 | the inner loop appends one "sub_chunk" chunk per piece, numbered on from the chunks so far |
| `Chunking.TextChunker.SplitLargeText` | backend/ai_pipeline/src/chunking/chunker.py:63-99 | `_split_large_text` packs the split sentences as specified |
| `Chunking.TextChunker.PackSentences` | backend/ai_pipeline/src/chunking/chunker.py:68-97 | the loop keeps `current_length == len(current_chunk)` and its state equal to the specification's after each sentence; the result is the specified packing |
| `Chunking.TextChunker.ChunkChapter` | backend/ai_pipeline/src/chunking/chunker.py:101-122 | `chunk_chapter` is `chunk_text` followed by section numbering |
| `Chunking.TextChunker.NumberSections` | backend/ai_pipeline/src/chunking/chunker.py:109-119 | the numbering loop gives each chunk its section number and the total |
| `ClaudeProcessing.Preview` | backend/ai_pipeline/src/rag/claude_processor.py:152 | the content itself when it has at most 200 characters; otherwise its first 200 characters followed by "...". So at most 203 characters |
| `ClaudeProcessing.CitationsShape` | backend/ai_pipeline/src/rag/claude_processor.py:135-157 | one citation per retrieved chunk, in order, with source number `i+1`. Missing fields default: chapter and section to "Unknown", similarity to 0.0, chunk id to `chunk_i`. The answer text plays no part |
| `ClaudeProcessing.Confidence` | backend/ai_pipeline/src/rag/claude_processor.py:159-178 | never above 1. Exactly 0.1 when the answer is empty or mentions "not available" or "not found", whatever the chunks; exactly 0.2 for any other answer with no chunks |
| `ClaudeProcessing.SimilaritySumNonNegative` | backend/ai_pipeline/src/rag/claude_processor.py:168-170 | the sum of non-negative similarity scores is non-negative |
| `ClaudeProcessing.SimilaritySumUniform` | backend/ai_pipeline/src/rag/claude_processor.py:168-170 | `n` chunks all scored `s` sum to `n * s` |
| `ClaudeProcessing.ConfidenceNonNegative` | backend/ai_pipeline/src/rag/claude_processor.py:159-178 | with all similarity scores non-negative, confidence is at least 0 |
| `ClaudeProcessing.ConfidenceUniform` | backend/ai_pipeline/src/rag/claude_processor.py:167-176 | for chunks all scored `s`, confidence is `min(0.7 s + 0.3 min(len/200, 1), 1)` |
| `ClaudeProcessing.NegativeSimilarityGivesNegativeConfidence` | backend/ai_pipeline/src/rag/claude_processor.py:175-176 | there is no lower clamp: the answer "ok" over one chunk scored -1.0 has negative confidence |
| `ClaudeProcessing.BlockLabel` | backend/ai_pipeline/src/rag/claude_processor.py:95-103 | the block of chunk `i` starts with its label `[SOURCE i+1]` |
| `ClaudeProcessing.FormatContextSnoc` | backend/ai_pipeline/src/rag/claude_processor.py:85-106 | one more chunk adds a newline and its block at the end: one block per chunk, in order, joined by newlines |
| `ClaudeProcessing.ResolveKey` | backend/ai_pipeline/src/rag/claude_processor.py:28-30 | a key is found exactly when the constructor key or the environment key is non-empty, and the constructor key wins |
| `ClaudeProcessing.GenerateSpecDerives` | backend/ai_pipeline/src/rag/claude_processor.py:34-83 | a successful generation had a client and a successful API call over the formatted context. Its answer is the reply's text, its citations are those of the chunks, and its confidence is computed from that answer |
| `ClaudeProcessing.ClaudeProcessor.constructor` | backend/ai_pipeline/src/rag/claude_processor.py:15-21 | a new processor keeps its key and has no client yet |
| `ClaudeProcessing.ClaudeProcessor.GetClient` | backend/ai_pipeline/src/rag/claude_processor.py:23-32 | it builds the client at most once and reuses it afterwards; with no key it fails with the missing-key error and keeps no client |
| `ClaudeProcessing.ClaudeProcessor.ExtractCitations` | backend/ai_pipeline/src/rag/claude_processor.py:135-157 | the loop builds the citation list the specification gives |
| `ClaudeProcessing.ClaudeProcessor.FormatContextOf` | backend/ai_pipeline/src/rag/claude_processor.py:85-106 | the loop builds the context string the specification gives |
| `ClaudeProcessing.ClaudeProcessor.GenerateAnswer` | backend/ai_pipeline/src/rag/claude_processor.py:34-83 | the result is the specified generation from the processor's state before the call; the client afterwards is the cached or new one |
| `RagService.Embedder.constructor` | backend/ai_pipeline/src/embedding/embedder.py:1-86 | a new embedder uses the given model and has embedded nothing |
| `RagService.Embedder.EmbedText` | backend/src/services/rag_service.py:46 | the result is the model's value for the text, and the call is logged |
| `RagService.VectorStore.constructor` | backend/ai_pipeline/src/rag/vector_store.py:1-192 | a new store is empty and has been searched never |
| `RagService.VectorStore.StoreChunk` | backend/src/services/rag_service.py:113-118 | an upsert: the point under the id is replaced or added, nothing else changes |
| `RagService.VectorStore.SearchSimilar` | backend/src/services/rag_service.py:50-53 | the result is the ranking of the current points; the points are unchanged and the search is logged |
| `RagService.QueryOutcomeCases` | backend/src/services/rag_service.py:41-80 | a successful query had a processor and an embedding, and its top-5 search succeeded. No hits give the fixed answer, no citations and confidence 0.1. Otherwise the generator's answer, citations and confidence are copied verbatim from a generation over those hits, with the hit count and the echoed user and chapter |
| `RagService.GeneratedOverHits` | backend/src/services/rag_service.py:56-70 | over a non-empty hit list, the 0.2 "no chunks" confidence is never produced: confidence is 0.1 for a declining answer, otherwise the averaged formula |
| `RagService.EmbeddablePrefix` | backend/src/services/rag_service.py:102-107 | the number of leading chunks whose embedding succeeds: all before it embed, the one at it (if any) fails |
| `RagService.Processed` | backend/src/services/rag_service.py:120-124 | the processed list after `n` chunks has `n` entries |
| `RagService.StoredAfterIsStoreAll` | backend/src/services/rag_service.py:102-118 | upserting the chunks one at a time gives the same points as upserting their entry list |
| `RagService.StoreAllOnly` | backend/src/services/rag_service.py:113-118 | after the upserts, every id is an old id or one of the new entries' ids |
| `RagService.StoreAllKeeps` | backend/src/services/rag_service.py:113-118 | with fresh ids, every old point is kept as it was |
| `RagService.StoreAllHas` | backend/src/services/rag_service.py:113-118 | with distinct ids, every entry is stored with its own content and metadata |
| `RagService.StoreAllSize` | backend/src/services/rag_service.py:113-118 | with distinct fresh ids, the store gains exactly one point per entry |
| `RagService.StoreAllFresh` | backend/src/services/rag_service.py:102-118 | with distinct fresh ids: one new point per chunk, old points kept, each chunk stored under its id, and nothing else |
| `RagService.EntriesAt` | backend/src/services/rag_service.py:102-118 | the run's `k`-th upsert writes chunk `k`'s point under the `k`-th id drawn |
| `RagService.EntriesFresh` | backend/src/services/rag_service.py:108 | ids that are fresh and distinct as drawn stay fresh and distinct as the run's entries |
| `RagService.StoredAfterKeeps` | backend/src/services/rag_service.py:102-118 | storing `n` chunks under fresh, distinct ids adds `n` points and keeps every earlier point |
| `RagService.StoredAfterHas` | backend/src/services/rag_service.py:102-118 | under distinct ids, chunk `k`'s vector, content and metadata are stored under the `k`-th id |
| `RagService.StoredAfterOnly` | backend/src/services/rag_service.py:102-118 | every stored id was either there before or drawn by the run |
| `RagService.StoredAfterFresh` | backend/src/services/rag_service.py:102-118 | storing the embeddable prefix under fresh ids gains exactly one point per chunk and changes nothing else |
| `RagService.StoredRunFresh` | backend/src/services/rag_service.py:89-138 | a whole indexing run under fresh, distinct ids: the store grows by one point per chunk embedded, each with that chunk's vector, content and metadata under its id; every earlier point is kept; nothing else is added |
| `RagService.ReportShape` | backend/src/services/rag_service.py:120-131 | the report counts every chunk and the whole content length; entry `k` has the `k`-th id drawn, the chunk's length and its metadata |
| `RagService.ProcessedEntries` | backend/src/services/rag_service.py:120-124 | entry `k` of the processed list has the `k`-th id drawn, the chunk's length and its metadata |
| `RagService.ChunkStep` | backend/src/services/rag_service.py:102-124 | one pass inside the embeddable prefix either stores that chunk under the next id and extends the list, or is the first failure and changes nothing |
| `RagService.RunEnds` | backend/src/services/rag_service.py:102-138 | a loop that stopped at the embeddable prefix left the state the run specification describes |
| `RagService.RAGService.constructor` | backend/src/services/rag_service.py:21-30 | the service keeps its embedder, store and processor, and has drawn no id |
| `RagService.RAGService.ProcessQuery` | backend/src/services/rag_service.py:32-87 | the result is the query outcome of the state before the call. Without a processor it fails before embedding or searching. Otherwise the query is embedded once and, on success, searched once with limit 5. The generator is untouched when the search fails or finds nothing. The points never change |
| `RagService.RAGService.IndexContent` | backend/src/services/rag_service.py:89-138 | the chapter is chunked by the default chunker. The leading chunks that embed are upserted in order under the next ids, with no rollback; the first embedding error propagates. A full run returns the report of all chunks. When the ids drawn are fresh and distinct, the store gains one point per chunk embedded, with its content and metadata, and keeps every other point |
| `RagService.RAGService.StoreChunks` | backend/src/services/rag_service.py:101-124 | the loop embeds each chunk once, in order, and stores it under a fresh id until the first failure. It returns the processed list or that failure |
| `RagService.RAGService.IndexChunk` | backend/src/services/rag_service.py:103-124 | one pass: embed the chunk; on failure nothing else changes, otherwise one id is drawn and the point is upserted under it |
| `RagService.RAGService.DeleteContent` | backend/src/services/rag_service.py:140-148 | nothing is removed from the store |
| `QuestionService.StatusName` | backend/src/models/question.py:7-11 | the status is one of "pending", "processed" and "error" |
| `QuestionService.StatusNameInjective` | backend/src/models/question.py:7-11 | distinct statuses have distinct names |
| `QuestionService.Question.constructor` | backend/src/models/question.py:13-23 | a question holds the fields it is built with |
| `QuestionService.ValidateQuestion` | backend/src/services/question_service.py:82-90 | the validity test of `validate_question`, stripped length at least 3, including the empty text; what validity implies is stated by `ValidIsNonBlank` |
| `QuestionService.ValidIsNonBlank` | backend/src/services/question_service.py:86-90 | a valid question is not blank, and no text shorter than 3 characters is valid |
| `QuestionService.QuestionHistory` | backend/src/services/question_service.py:73-80 | the history is always empty |
| `QuestionService.QuestionService.constructor` | backend/src/services/question_service.py:18-20 | the service keeps its pipeline |
| `QuestionService.QuestionService.CreateQuestion` | backend/src/services/question_service.py:22-37 | a new question copying user id, text and chapter context, with the given id and the two clock readings, in status pending |
| `QuestionService.QuestionService.ProcessQuestion` | backend/src/services/question_service.py:39-71 | the pipeline is queried with the text, the user id and the chapter context. A failure leaves the status error and propagates. A success leaves it processed and copies answer, citations and confidence |
| `ChatbotRoutes.BlankIsAllSpace` | backend/src/api/chatbot_routes.py:63 | a question is refused exactly when it is empty or all white space |
| `ChatbotRoutes.Ask` | backend/src/api/chatbot_routes.py:54-99 | a blank question is a 400; a pipeline failure a 500 with a fixed detail. Otherwise the answer and confidence are copied, the question echoed, and the citations copied or `[]` as `include_citations` asks |
| `ChatbotRoutes.AskWithoutProcessor` | backend/src/api/chatbot_routes.py:24-36 | without a processor, every non-blank question is a 500 |
| `ChatbotRoutes.AskCitations` | backend/src/api/chatbot_routes.py:69-89 | a successful reply with citations has one citation per search hit, numbered from 1. No hits give the fixed answer with confidence 0.1 |
| `ChatbotRoutes.GetRagService` | backend/src/api/chatbot_routes.py:18-36 | a fresh pipeline, empty store and log. It has a processor exactly when the environment key is set and non-empty, and that processor has no client yet |
| `ChatbotRoutes.ServiceProcessorHasKey` | backend/src/api/chatbot_routes.py:24-27 | when the key is set, that processor's client is made from the environment key |
| `ChatbotRoutes.AskQuestion` | backend/src/api/chatbot_routes.py:54-99 | the reply is `Ask` of the query outcome. A blank question touches nothing, and the points never change |
| `ChatbotRoutes.History` | backend/src/api/chatbot_routes.py:102-112 | the history is always empty |
| `ChapterRoutes.TableEntry` | backend/src/api/chapter_routes.py:14-69 | table entry `n` is chapter `n+1`, published, with id `str(n+1)` |
| `ChapterRoutes.ChaptersDataShape` | backend/src/api/chapter_routes.py:14-69 | the table has six published chapters numbered 1 to 6 in order, with their numbers as ids |
| `ChapterRoutes.Published` | backend/src/api/chapter_routes.py:79 | the filter keeps every published chapter and only those, and adds none |
| `ChapterRoutes.Insert` | backend/src/api/chapter_routes.py:82 | an insertion adds exactly the one chapter |
| `ChapterRoutes.InsertSorted` | backend/src/api/chapter_routes.py:82 | inserting into a list ordered by number keeps it ordered |
| `ChapterRoutes.SortByNumber` | backend/src/api/chapter_routes.py:82 | the sort is a permutation |
| `ChapterRoutes.SortByNumberSorted` | backend/src/api/chapter_routes.py:82 | the sort orders by number |
| `ChapterRoutes.SortByNumberOfSorted` | backend/src/api/chapter_routes.py:82 | sorting an ordered list leaves it as it is |
| `ChapterRoutes.ListChaptersSpec` | backend/src/api/chapter_routes.py:71-84 | the listing is ordered by number, is a permutation of the published chapters, and holds a chapter exactly when it is in the table and published |
| `ChapterRoutes.ListChaptersData` | backend/src/api/chapter_routes.py:14-84 | on the fixed table the listing is the table itself |
| `ChapterRoutes.ListOfNumberedPublished` | backend/src/api/chapter_routes.py:71-84 | a table of published chapters numbered 1, 2, ... is listed as it stands |
| `ChapterRoutes.NumberedIsSorted` | backend/src/api/chapter_routes.py:82 | chapters numbered 1, 2, ... are ordered by number |
| `ChapterRoutes.PublishedOfPublished` | backend/src/api/chapter_routes.py:79 | filtering an all-published table keeps it whole |
| `ChapterRoutes.FirstMatch` | backend/src/api/chapter_routes.py:95-99 | a found chapter is in the table and matches by id or by `str(number)`; nothing is found exactly when no chapter matches |
| `ChapterRoutes.FirstMatchIsFirst` | backend/src/api/chapter_routes.py:95-99 | the chapter found is the match at the smallest index |
| `ChapterRoutes.FindChapter` | backend/src/api/chapter_routes.py:95-99 | the loop with `break` finds the first match |
| `ChapterRoutes.GetChapter` | backend/src/api/chapter_routes.py:87-113 | it succeeds exactly when the first match is published, and then returns it. No match and an unpublished match give the same 404 "Chapter not found" |
| `ChapterRoutes.FirstMatchData` | backend/src/api/chapter_routes.py:14-113 | on the fixed table, id "n" finds chapter `n` for 1 <= n <= 6, and "7" finds nothing |
| `ChapterRoutes.IndexChapterContentAsWritten` | backend/src/api/chapter_routes.py:117-143 | the endpoint as written always fails with a 500 |
| `ChapterRoutes.IndexAsWrittenNeverIndexes` | backend/src/api/chapter_routes.py:122 | a well-formed request gets a 500, and a request with no fields gets a 500 instead of a 400 |
| `ChapterRoutes.IndexChapterContent` | backend/src/api/chapter_routes.py:124-143 | a missing or empty field is a 400 and nothing is indexed. Otherwise the chapter is indexed; the report is returned unchanged, or the indexing error becomes a 500 carrying its message |
| `AuthRoutes.VerifyPassword` | backend/src/api/auth_routes.py:39-43 | every password verifies |
| `AuthRoutes.GetPasswordHash` | backend/src/api/auth_routes.py:45-48 | the hash is the fixed placeholder |
| `AuthRoutes.PasswordPlaceholders` | backend/src/api/auth_routes.py:39-48 | all passwords hash alike, and any password verifies against any hash |
| `AuthRoutes.Public` | backend/src/api/auth_routes.py:142-150 | the reply's user keeps the id, email and role and has no hash field |
| `AuthRoutes.NumberedPosition` | backend/src/api/auth_routes.py:113 | a stored email sits at some position `i` and has id `str(i+1)` |
| `AuthRoutes.NumberedIdsDistinct` | backend/src/api/auth_routes.py:25-37 | under the numbering invariant, user ids are pairwise distinct |
| `AuthRoutes.NumberedIdsRange` | backend/src/api/auth_routes.py:113 | each id is one of "1" to "n", so the next id `str(n+1)` is free |
| `AuthRoutes.NumberedKeys` | backend/src/api/auth_routes.py:128 | every record is keyed by its own email |
| `AuthRoutes.NumberedAdd` | backend/src/api/auth_routes.py:113-128 | adding a user under a new email with id `str(n+1)` keeps the numbering invariant |
| `AuthRoutes.NewUser` | backend/src/api/auth_routes.py:116-126 | the new record is an active reader with the given email and id, the placeholder hash, and the two separate clock readings as creation and update times |
| `AuthRoutes.Login` | backend/src/api/auth_routes.py:154-206 | a missing or empty field is a 400; an unknown or inactive email a 401. Otherwise a bearer token and the user without its hash |
| `AuthRoutes.LoginIgnoresPassword` | backend/src/api/auth_routes.py:178-183 | the password is never checked: any two non-empty passwords give the same reply, and an active user always gets in |
| `AuthRoutes.LoginAfterRegister` | backend/src/api/auth_routes.py:128-206 | a newly registered user logs in at once, with any password, and gets the user object registration returned |
| `AuthRoutes.SplitOnSpace` | backend/src/api/auth_routes.py:244 | `split(" ")` gives at least one piece, one exactly when there is no space, and no piece holds a space |
| `AuthRoutes.SplitOnSpaceJoin` | backend/src/api/auth_routes.py:244 | joining the pieces with single spaces gives the string back |
| `AuthRoutes.SplitOnSpaceSkipsWord` | backend/src/api/auth_routes.py:244 | a leading word without spaces only extends the first piece |
| `AuthRoutes.BearerPart` | backend/src/api/auth_routes.py:244 | the decoded part holds no space, and a token without a space is decoded whole |
| `AuthRoutes.BearerPartOfHeader` | backend/src/api/auth_routes.py:244 | `"Bearer " + t` is decoded as `t` |
| `AuthRoutes.SafeView` | backend/src/api/auth_routes.py:228-240 | the view has no hash and keeps the id and email |
| `AuthRoutes.TokenUser` | backend/src/api/auth_routes.py:242-266 | it succeeds exactly when the token decodes to a `sub` naming a stored user, and returns that record. Every failure, the inner 401s included, becomes the same 401 |
| `AuthRoutes.MeAsWritten` | backend/src/api/auth_routes.py:219-266 | no token gives the sample user; a good token gives the record as stored, hash included |
| `AuthRoutes.MeAsWrittenLeaksHash` | backend/src/api/auth_routes.py:260 | the seed user's own token reveals the stored password hash |
| `AuthRoutes.Me` | backend/src/api/auth_routes.py:219-266 | the same cases as the endpoint, while a returned user never holds the hash |
| `AuthRoutes.MeMatchesAsWritten` | backend/src/api/auth_routes.py:219-266 | the corrected endpoint succeeds exactly when the original does, and returns the same user without the hash |
| `AuthRoutes.UserStore.constructor` | backend/src/api/auth_routes.py:25-37 | the table holds the seed user only, and is numbered |
| `AuthRoutes.UserStore.Register` | backend/src/api/auth_routes.py:83-151 | a missing or empty field is a 400 and an existing email a 409, both leaving the table unchanged. Otherwise exactly one active reader is added under the email, with id `str(n+1)`, and a bearer token is returned. The numbering invariant is kept |
| `AuthRoutes.UserStore.LoginUser` | backend/src/api/auth_routes.py:154-206 | login on the current table; nothing is changed |
| `AuthContext.Initial` | frontend/src/contexts/AuthContext.js:76-82 | the initial state is signed out, not loading, without error, with the stored token |
| `AuthContext.StartActions` | frontend/src/contexts/AuthContext.js:10-15 | LOGIN_START and REGISTER_START (lines 43-48) raise loading, clear the error and change nothing else |
| `AuthContext.SuccessActions` | frontend/src/contexts/AuthContext.js:16-24 | LOGIN_SUCCESS and REGISTER_SUCCESS (lines 49-57) act alike: signed in with the payload's user and token, not loading, no error |
| `AuthContext.FailureActions` | frontend/src/contexts/AuthContext.js:25-33 | LOGIN_FAILURE ends the session and stores the error. REGISTER_FAILURE (lines 58-63) sets only loading and the error |
| `AuthContext.LogoutResets` | frontend/src/contexts/AuthContext.js:34-42 | LOGOUT gives the same signed-out state whatever it starts from, so it is idempotent |
| `AuthContext.OtherActions` | frontend/src/contexts/AuthContext.js:64-71 | SET_ERROR changes only the error; an unknown action changes nothing |
| `AuthContext.RunConsistent` | frontend/src/contexts/AuthContext.js:8-72 | every action sequence keeps "authenticated implies user and token present" |
| `AuthContext.InitialRunsConsistent` | frontend/src/contexts/AuthContext.js:76-82 | every run from the initial state is consistent |
| `AuthContext.RunAppend` | frontend/src/contexts/AuthContext.js:8-72 | dispatching `xs` then `ys` is dispatching `xs + ys` |
| `AuthContext.ErrorMessage` | frontend/src/contexts/AuthContext.js:141 | the error reply's non-empty detail, else the fallback message |
| `AuthContext.Reply` | frontend/src/contexts/AuthContext.js:139-146 | `success` is true exactly when the call replied; a failure returns the same message it dispatches |
| `AuthContext.LoginFlow` | frontend/src/contexts/AuthContext.js:117-148 | after `login` the state is not loading. A reply signs in with its user and token. A failure signs out with a non-empty message equal to the one returned |
| `AuthContext.RegisterFlow` | frontend/src/contexts/AuthContext.js:151-179 | after `register` the state is not loading. A reply signs in. A failure keeps the previous session and stores a non-empty message equal to the one returned |
| `AuthContext.LogoutAndClear` | frontend/src/contexts/AuthContext.js:182-190 | `logout` ends signed out; `clearError` clears only the error |
| `AuthContext.SessionEndsSignedOut` | frontend/src/contexts/AuthContext.js:117-185 | a login or a registration followed by a logout ends signed out, whatever the call did |

## Left out

- The Anthropic API call, the embedding model and the similarity ranking are function parameters. Their latency, errors and numerical results are not modelled. Their failures are `Failure` values that propagate, as the code re-raises them.
- `_create_prompt` (claude_processor.py:108-133) is a static template. The model passes the query and the context to the API parameter without building the prompt text.
- The `:.3f` formatting of the similarity score in `_format_context` is a parameter `real -> string`. Python float printing is not modelled.
- Scores are Dafny `real`, not IEEE floats: rounding is not modelled.
- `datetime.utcnow()` and `uuid4()` are parameters: one string per clock reading, and an id stream. Where the source reads the clock twice (auth_routes.py:124-125, question_service.py:32-33) the model takes two readings, with no relation between them. The freshness and distinctness of uuids is a hypothesis (`FreshIds`) of `StoreAllFresh`, `StoredRunFresh` and `IndexContent`'s last clause, not a fact the model derives.
- `Chunking.TextChunker`: `max_chunk_size` and `overlap` are `nat`. Python accepts negative integers there, and a negative overlap would act as 0 under the `> 0` test; the one construction site (`TextChunker()` in rag_service.py) uses the defaults 512 and 50, so negative settings are not modelled.
- `RagService.RAGService.StoreChunks`: the store's upsert is infallible; only embedding can fail mid-loop.
- `str(question.user_id)` in `process_question` is the identity: user ids are strings in the model.
- JWT: `create_access_token` is a parameter over the `sub` and `user_id` claims. The expiry times and the signature are left out. `decode_access_token` is a parameter giving the `sub` claim or a failure.
- bcrypt is not used by the code (its two helpers are placeholders), and is left out.
- `logout_user` only returns a fixed message, and `get_current_active_user` only adds an `is_active` test on top of `/me`. Neither is modelled.
- `test_rag_pipeline` in the chatbot router is a diagnostic endpoint. It is not modelled.
- FastAPI itself is left out: async handlers, dependency injection, request parsing into dictionaries, and logging. Request bodies become datatypes whose absent keys are `None`.
- Concurrency is left out: every handler is sequential.
- `USERS_DB` is one `UserStore` object; it is not shared between processes.
- `AuthContext.js`: the axios calls of `login`, `register` and `verifyToken` become a `CallOutcome` value. `localStorage` is read only as the initial token. Its writes are not modelled: `login` and `register` storing the token (lines 129 and 160) and `logout` removing it (line 183). So the model does not show that a failed login clears `state.token` but leaves the old stored token in place. The effect that verifies a stored token on load, the React provider and `useAuth` are not modelled.
- `Chunking.SplitSentences`: the regex is hand-written for `[.!?]+\s+` with Python's `\s` taken as `str.isspace`. Other Unicode subtleties of `re` are not modelled.
- `Text.Lower` is ASCII lower-casing. That is exact for the two phrases the confidence heuristic looks for, but not for all of Unicode.
- `ChapterRoutes.SortByNumber`: it is an insertion sort that keeps equal numbers in table order. That the sort is stable is not stated as a lemma.
- The vector store's chapter filter and its Qdrant client (vector_store.py) are not modelled: `chapter_context` is only echoed, as in `process_query`.

## Findings

| source | as written | input that shows it | evidently intended | confidence | as-written member | corrected member |
|---|---|---|---|---|---|---|
| backend/src/api/chapter_routes.py:122 | `index_chapter_content` imports `rag_service` from the chatbot router, which defines no such module-level name. The `ImportError` is raised before any validation, so every request is answered with a 500 | `{"chapter_id": "1", "content": "Chapter text."}` gets a 500; `{}` gets a 500 instead of a 400 | validate the two fields (400), then index with a pipeline and return its report, or a 500 carrying the indexing error | medium, not executed | `ChapterRoutes.IndexChapterContentAsWritten` (with `ChapterRoutes.IndexAsWrittenNeverIndexes`) | `ChapterRoutes.IndexChapterContent` |
| backend/src/api/auth_routes.py:260 | `/me` with a valid token returns the stored `USERS_DB` record itself, `password_hash` included, while register, login and the no-token branch return users without it | a token whose `sub` is `user@example.com` returns the placeholder hash | return the user without `password_hash` | medium, not executed | `AuthRoutes.MeAsWritten` (with `AuthRoutes.MeAsWrittenLeaksHash`) | `AuthRoutes.Me` (with `AuthRoutes.MeMatchesAsWritten`) |
