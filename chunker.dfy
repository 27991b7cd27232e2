/** The text chunker (`TextChunker` in backend/ai_pipeline/src/chunking/chunker.py):
    a chapter is cut into paragraphs on blank lines; a paragraph that fits in
    `maxChunkSize` characters becomes one chunk, a longer one is cut into
    sentences which are packed greedily into sub-chunks, each new sub-chunk
    starting with the last `overlap` characters of the previous buffer. */
module Chunking {
  import opened Wrappers
  import opened Text

  /** `TextChunker()` with no arguments, as the indexer builds it. */
  const DefaultMaxChunkSize: nat := 512
  const DefaultOverlap: nat := 50

  datatype ChunkKind = Paragraph | SubChunk

  /** The metadata dictionary of a chunk. `sectionNumber` and `totalChunks`
      are the two keys that `chunk_chapter` adds (`None`: key absent). */
  datatype ChunkMetadata = ChunkMetadata(
    chunkId: nat,
    chapterId: Option<string>,
    kind: ChunkKind,
    originalLength: nat,
    sectionNumber: Option<nat>,
    totalChunks: Option<nat>)

  datatype Chunk = Chunk(content: string, metadata: ChunkMetadata)

  // ---------------------------------------------------------------------
  // Sentences: re.split(r'[.!?]+\s+', text)
  // ---------------------------------------------------------------------

  predicate IsTerminator(c: char) {
    c == '.' || c == '!' || c == '?'
  }

  /** Length of the run of `[.!?]` that starts at position `i` of `s`. */
  function TerminatorRun(s: string, i: nat): (n: nat)
    requires i <= |s|
    ensures i + n <= |s|
    decreases |s| - i
  {
    if i < |s| && IsTerminator(s[i]) then 1 + TerminatorRun(s, i + 1) else 0
  }

  /** Length of the run of white space that starts at position `i` of `s`. */
  function SpaceRun(s: string, i: nat): (n: nat)
    requires i <= |s|
    ensures i + n <= |s|
    ensures n > 0 ==> IsSpace(s[i + n - 1])
    decreases |s| - i
  {
    if i < |s| && IsSpace(s[i]) then 1 + SpaceRun(s, i + 1) else 0
  }

  /** The length of the separator `[.!?]+\s+` that starts at position `i`,
      or 0 if none does. Both runs are maximal: the regex is greedy, and
      giving back a terminator leaves a terminator, not white space, after
      the run. A separator ends in white space. */
  function SeparatorAt(s: string, i: nat): (n: nat)
    requires i <= |s|
    ensures i + n <= |s|
    ensures n > 0 ==> IsSpace(s[i + n - 1])
  {
    if i == |s| || !IsTerminator(s[i]) then 0
    else
      var p := TerminatorRun(s, i);
      if i + p < |s| && IsSpace(s[i + p]) then p + SpaceRun(s, i + p) else 0
  }

  /** Where no separator starts, the scan moves past one character, or past
      the whole run of terminators (a match cannot start inside it either). */
  function NoSeparatorStep(s: string, i: nat): (p: nat)
    requires i < |s|
    ensures 1 <= p <= |s| - i
  {
    if IsTerminator(s[i]) then TerminatorRun(s, i) else 1
  }

  /** `x` is non-empty and its last character is `c`. */
  predicate EndsIn(x: string, c: char) {
    x != "" && x[|x| - 1] == c
  }

  /** The pieces of `re.split(r'[.!?]+\s+', ...)` applied to `s[i..]`: the
      text between the separators, which are dropped, punctuation included.
      When `s` ends in a character other than white space, the last piece
      ends with that character. */
  function SplitFrom(s: string, i: nat): (pieces: seq<string>)
    requires i <= |s|
    ensures |pieces| >= 1
    ensures i < |s| && !IsSpace(s[|s| - 1]) ==> EndsIn(pieces[|pieces| - 1], s[|s| - 1])
    decreases |s| - i
  {
    if i == |s| then [""]
    else
      var n := SeparatorAt(s, i);
      if n > 0 then
        var rest := SplitFrom(s, i + n);
        PrependEmptyKeepsLast(rest, s[|s| - 1]);
        [""] + rest
      else
        var p := NoSeparatorStep(s, i);
        var rest := SplitFrom(s, i + p);
        assert i + p == |s| ==> rest == [""] && EndsIn(s[i..i + p], s[|s| - 1]);
        ExtendFirstKeepsLast(s[i..i + p], rest, s[|s| - 1]);
        [s[i..i + p] + rest[0]] + rest[1..]
  }

  /** `re.split(r'[.!?]+\s+', s)`. */
  function SplitSentences(s: string): (pieces: seq<string>)
    ensures |pieces| >= 1
    ensures s != "" && !IsSpace(s[|s| - 1]) ==> EndsIn(pieces[|pieces| - 1], s[|s| - 1])
  {
    SplitFrom(s, 0)
  }

  lemma PrependEmptyKeepsLast(rest: seq<string>, c: char)
    requires rest != []
    ensures EndsIn(rest[|rest| - 1], c) ==> var q := [""] + rest; EndsIn(q[|q| - 1], c)
  {
  }

  lemma ExtendFirstKeepsLast(h: string, rest: seq<string>, c: char)
    requires rest != []
    ensures EndsIn(rest[|rest| - 1], c) || (rest == [""] && EndsIn(h, c)) ==>
      var q := [h + rest[0]] + rest[1..]; EndsIn(q[|q| - 1], c)
  {
    var q := [h + rest[0]] + rest[1..];
    if |rest| == 1 {
      assert rest == [""] ==> h + rest[0] == h;
      assert q[0] == h + rest[0];
    } else {
      assert q[|q| - 1] == rest[|rest| - 1];
    }
  }

  // ---------------------------------------------------------------------
  // Packing sentences into sub-chunks (_split_large_text)
  // ---------------------------------------------------------------------

  /** The loop state of `_split_large_text`: the chunks saved so far and the
      buffer being filled (`current_chunk`). */
  datatype Buffer = Buffer(saved: seq<string>, current: string)

  /** `s[max(0, len(s) - overlap):]`. */
  function Tail(s: string, overlap: nat): string {
    s[if |s| > overlap then |s| - overlap else 0..]
  }

  /** One iteration of the loop, for the raw (unstripped) sentence `raw`. */
  function Absorb(maxSize: nat, overlap: nat, b: Buffer, raw: string): Buffer {
    var sentence := Strip(raw);
    if sentence == "" then b
    else if |b.current| + |sentence| > maxSize && b.current != "" then
      Buffer(b.saved + [Strip(b.current)], Reseed(b.current, overlap, sentence))
    else if b.current != "" then Buffer(b.saved, b.current + " " + sentence)
    else Buffer(b.saved, sentence)
  }

  /** The loop state after the sentences `raws`. */
  function AbsorbAll(maxSize: nat, overlap: nat, raws: seq<string>): Buffer
    decreases |raws|
  {
    if raws == [] then Buffer([], "")
    else Absorb(maxSize, overlap, AbsorbAll(maxSize, overlap, raws[..|raws| - 1]), raws[|raws| - 1])
  }

  /** The final "add the last chunk if it has content". */
  function Flush(b: Buffer): seq<string> {
    if Strip(b.current) != "" then b.saved + [Strip(b.current)] else b.saved
  }

  /** The sub-chunks packed from a list of raw sentences. */
  function Pack(maxSize: nat, overlap: nat, raws: seq<string>): seq<string> {
    Flush(AbsorbAll(maxSize, overlap, raws))
  }

  /** What `_split_large_text` returns. */
  function SplitLarge(maxSize: nat, overlap: nat, text: string): seq<string> {
    Pack(maxSize, overlap, SplitSentences(text))
  }

  /** `x` stripped, if anything is left of it. */
  function Kept(x: string): seq<string> {
    if Strip(x) != "" then [Strip(x)] else []
  }

  /** The stripped non-empty elements, in order. */
  function KeepStripped(xs: seq<string>): (r: seq<string>)
    ensures forall p :: p in r ==> p != "" && IsStripped(p)
    decreases |xs|
  {
    if xs == [] then [] else Kept(xs[0]) + KeepStripped(xs[1..])
  }

  lemma {:induction false} KeepStrippedSnoc(xs: seq<string>, x: string)
    ensures KeepStripped(xs + [x]) == KeepStripped(xs) + Kept(x)
    decreases |xs|
  {
    if xs == [] {
      assert [x][1..] == [];
      assert KeepStripped([x]) == Kept(x) + [];
    } else {
      var ys := xs + [x];
      assert ys[0] == xs[0] && ys[1..] == xs[1..] + [x];
      KeepStrippedSnoc(xs[1..], x);
      var a, b, c := Kept(xs[0]), KeepStripped(xs[1..]), Kept(x);
      assert KeepStripped(ys) == a + (b + c);
      assert a + (b + c) == (a + b) + c;
    }
  }

  function Slack(overlap: nat): nat {
    if overlap > 0 then overlap + 1 else 0
  }

  /** `c` is a buffer (or chunk) that was seeded with the whole sentence
      `sentence`, possibly after an overlap tail and a space, and then never
      extended: it ends with the whole sentence and is at most the tail and
      the space longer. */
  predicate Seeds(c: string, sentence: string, overlap: nat) {
    sentence != "" && EndsWith(c, sentence) && |c| <= Slack(overlap) + |sentence|
  }

  ghost predicate SeedOf(c: string, raws: seq<string>, overlap: nat) {
    exists k :: 0 <= k < |raws| && Seeds(c, Strip(raws[k]), overlap)
  }

  ghost predicate AllBlank(raws: seq<string>) {
    forall k :: 0 <= k < |raws| ==> Strip(raws[k]) == ""
  }

  /** What holds of the loop state for any overlap. */
  ghost predicate BufferInv(maxSize: nat, overlap: nat, raws: seq<string>, b: Buffer) {
    && (forall c :: c in b.saved ==> c != "" && (|c| <= maxSize + 1 || SeedOf(c, raws, overlap)))
    && (b.current != "" ==> !IsSpace(b.current[|b.current| - 1]))
    && (b.current == "" <==> AllBlank(raws))
    && (b.current == "" ==> b.saved == [])
    && (|b.current| <= maxSize + 1 || SeedOf(b.current, raws, overlap))
  }

  lemma {:induction false} SeedOfExtend(c: string, raws: seq<string>, x: string, overlap: nat)
    requires SeedOf(c, raws, overlap)
    ensures SeedOf(c, raws + [x], overlap)
  {
    var k :| 0 <= k < |raws| && Seeds(c, Strip(raws[k]), overlap);
    assert (raws + [x])[k] == raws[k];
  }

  /** Saving a buffer strips it, which keeps it non-empty and keeps the bound. */
  lemma {:induction false} SaveKeepsBound(maxSize: nat, overlap: nat, raws: seq<string>, cur: string)
    requires cur != "" && !IsSpace(cur[|cur| - 1])
    requires |cur| <= maxSize + 1 || SeedOf(cur, raws, overlap)
    ensures Strip(cur) != ""
    ensures |Strip(cur)| <= maxSize + 1 || SeedOf(Strip(cur), raws, overlap)
  {
    StripIsTrimStart(cur);
    if |cur| > maxSize + 1 {
      var k :| 0 <= k < |raws| && Seeds(cur, Strip(raws[k]), overlap);
      TrimStartKeepsSuffix(cur, Strip(raws[k]));
      assert Seeds(Strip(cur), Strip(raws[k]), overlap);
    }
  }

  ghost predicate SavedOk(maxSize: nat, overlap: nat, raws: seq<string>, saved: seq<string>) {
    forall c :: c in saved ==> c != "" && (|c| <= maxSize + 1 || SeedOf(c, raws, overlap))
  }

  lemma {:induction false} SavedOkExtend(maxSize: nat, overlap: nat, raws: seq<string>, saved: seq<string>, x: string)
    requires SavedOk(maxSize, overlap, raws, saved)
    ensures SavedOk(maxSize, overlap, raws + [x], saved)
  {
    forall c | c in saved && |c| > maxSize + 1 ensures SeedOf(c, raws + [x], overlap) {
      SeedOfExtend(c, raws, x, overlap);
    }
  }

  lemma {:induction false} BlankStepInv(maxSize: nat, overlap: nat, raws: seq<string>, b: Buffer, x: string)
    requires BufferInv(maxSize, overlap, raws, b) && Strip(x) == ""
    ensures BufferInv(maxSize, overlap, raws + [x], b)
  {
    var raws' := raws + [x];
    assert forall k :: 0 <= k < |raws| ==> raws'[k] == raws[k];
    assert raws'[|raws|] == x;
    assert AllBlank(raws') == AllBlank(raws);
    assert SavedOk(maxSize, overlap, raws, b.saved);
    SavedOkExtend(maxSize, overlap, raws, b.saved, x);
    if |b.current| > maxSize + 1 {
      SeedOfExtend(b.current, raws, x, overlap);
    }
  }

  /** The new buffer after a non-blank sentence is non-empty and bounded. */
  lemma {:induction false} NonBlankStepInv(maxSize: nat, overlap: nat, raws: seq<string>, x: string, b': Buffer)
    requires Strip(x) != ""
    requires SavedOk(maxSize, overlap, raws + [x], b'.saved)
    requires b'.current != "" && !IsSpace(b'.current[|b'.current| - 1])
    requires |b'.current| <= maxSize + 1 || Seeds(b'.current, Strip(x), overlap)
    ensures BufferInv(maxSize, overlap, raws + [x], b')
  {
    var raws' := raws + [x];
    assert raws'[|raws|] == x;
    assert !AllBlank(raws');
  }

  lemma {:induction false} SavedOkSnoc(maxSize: nat, overlap: nat, raws: seq<string>, saved: seq<string>, c: string)
    requires SavedOk(maxSize, overlap, raws, saved)
    requires c != "" && (|c| <= maxSize + 1 || SeedOf(c, raws, overlap))
    ensures SavedOk(maxSize, overlap, raws, saved + [c])
  {
  }

  /** The buffer a save starts: the overlap tail, a space and the sentence. */
  function Reseed(cur: string, overlap: nat, sentence: string): string {
    if overlap > 0 then Tail(cur, overlap) + " " + sentence else sentence
  }

  lemma {:induction false} ReseedSeeds(cur: string, overlap: nat, sentence: string)
    requires sentence != "" && !IsSpace(sentence[|sentence| - 1])
    ensures var r := Reseed(cur, overlap, sentence);
      r != "" && !IsSpace(r[|r| - 1]) && Seeds(r, sentence, overlap)
  {
    var r := Reseed(cur, overlap, sentence);
    assert r[|r| - 1] == sentence[|sentence| - 1];
    assert r[|r| - |sentence|..] == sentence;
  }

  lemma {:induction false} SaveStepInv(maxSize: nat, overlap: nat, raws: seq<string>, b: Buffer, x: string)
    requires SavedOk(maxSize, overlap, raws, b.saved)
    requires b.current != "" && !IsSpace(b.current[|b.current| - 1])
    requires |b.current| <= maxSize + 1 || SeedOf(b.current, raws, overlap)
    requires Strip(x) != "" && |b.current| + |Strip(x)| > maxSize
    ensures BufferInv(maxSize, overlap, raws + [x], Absorb(maxSize, overlap, b, x))
  {
    var s := Strip(x);
    var chunk := Strip(b.current);
    var b' := Buffer(b.saved + [chunk], Reseed(b.current, overlap, s));
    SaveKeepsBound(maxSize, overlap, raws, b.current);
    SavedOkSnoc(maxSize, overlap, raws, b.saved, chunk);
    SavedOkExtend(maxSize, overlap, raws, b'.saved, x);
    ReseedSeeds(b.current, overlap, s);
    NonBlankStepInv(maxSize, overlap, raws, x, b');
    assert Absorb(maxSize, overlap, b, x) == b';
  }

  lemma {:induction false} AppendStepInv(maxSize: nat, overlap: nat, raws: seq<string>, b: Buffer, x: string)
    requires BufferInv(maxSize, overlap, raws, b)
    requires Strip(x) != "" && !(b.current != "" && |b.current| + |Strip(x)| > maxSize)
    ensures BufferInv(maxSize, overlap, raws + [x], Absorb(maxSize, overlap, b, x))
  {
    var s := Strip(x);
    var cur := b.current;
    assert SavedOk(maxSize, overlap, raws, b.saved);
    SavedOkExtend(maxSize, overlap, raws, b.saved, x);
    if cur != "" {
      var cur' := cur + " " + s;
      assert Absorb(maxSize, overlap, b, x) == Buffer(b.saved, cur');
      assert cur'[|cur'| - 1] == s[|s| - 1];
      NonBlankStepInv(maxSize, overlap, raws, x, Buffer(b.saved, cur'));
    } else {
      assert Absorb(maxSize, overlap, b, x) == Buffer(b.saved, s);
      assert EndsWith(s, s);
      NonBlankStepInv(maxSize, overlap, raws, x, Buffer(b.saved, s));
    }
  }

  lemma {:induction false} AbsorbKeepsInv(maxSize: nat, overlap: nat, raws: seq<string>, b: Buffer, x: string)
    requires BufferInv(maxSize, overlap, raws, b)
    ensures BufferInv(maxSize, overlap, raws + [x], Absorb(maxSize, overlap, b, x))
  {
    var s := Strip(x);
    if s == "" {
      assert Absorb(maxSize, overlap, b, x) == b;
      BlankStepInv(maxSize, overlap, raws, b, x);
    } else if b.current != "" && |b.current| + |s| > maxSize {
      assert SavedOk(maxSize, overlap, raws, b.saved);
      SaveStepInv(maxSize, overlap, raws, b, x);
    } else {
      AppendStepInv(maxSize, overlap, raws, b, x);
    }
  }

  lemma {:induction false} AbsorbAllInv(maxSize: nat, overlap: nat, raws: seq<string>)
    ensures BufferInv(maxSize, overlap, raws, AbsorbAll(maxSize, overlap, raws))
    decreases |raws|
  {
    if raws != [] {
      var init := raws[..|raws| - 1];
      AbsorbAllInv(maxSize, overlap, init);
      AbsorbKeepsInv(maxSize, overlap, init, AbsorbAll(maxSize, overlap, init), raws[|raws| - 1]);
      InitLast(raws);
    }
  }

  /** Every sub-chunk is non-empty, and is either at most `maxSize + 1`
      characters long (appending only happens while the buffer plus the
      sentence fit, the joining space not being counted) or a buffer that was
      seeded over the limit and saved as it was: it ends with one whole
      sentence and is longer than that sentence by at most the overlap tail
      and one space. Nothing is ever truncated. */
  lemma {:induction false} PackBound(maxSize: nat, overlap: nat, raws: seq<string>)
    ensures forall c :: c in Pack(maxSize, overlap, raws) ==>
      c != "" && (|c| <= maxSize + 1 || SeedOf(c, raws, overlap))
  {
    var b := AbsorbAll(maxSize, overlap, raws);
    AbsorbAllInv(maxSize, overlap, raws);
    if Strip(b.current) != "" {
      SaveKeepsBound(maxSize, overlap, raws, b.current);
    }
  }

  lemma {:induction false} SeedsNoOverlap(c: string, raws: seq<string>)
    requires SeedOf(c, raws, 0)
    ensures exists k :: 0 <= k < |raws| && c == Strip(raws[k])
  {
    var k :| 0 <= k < |raws| && Seeds(c, Strip(raws[k]), 0);
    assert c[|c| - |Strip(raws[k])|..] == c;
  }

  /** Without overlap, a sub-chunk over `maxSize + 1` characters is exactly one sentence. */
  lemma {:induction false} PackBoundNoOverlap(maxSize: nat, raws: seq<string>, c: string)
    requires c in Pack(maxSize, 0, raws)
    ensures c != ""
    ensures |c| <= maxSize + 1 || exists k :: 0 <= k < |raws| && c == Strip(raws[k])
  {
    PackBound(maxSize, 0, raws);
    if |c| > maxSize + 1 {
      SeedsNoOverlap(c, raws);
    }
  }

  /** A paragraph with a non-space last character yields at least one sub-chunk. */
  lemma {:induction false} PackNonEmpty(maxSize: nat, overlap: nat, raws: seq<string>)
    requires !AllBlank(raws)
    ensures Pack(maxSize, overlap, raws) != []
  {
    AbsorbAllInv(maxSize, overlap, raws);
    var b := AbsorbAll(maxSize, overlap, raws);
    SaveKeepsBound(maxSize, overlap, raws, b.current);
  }

  lemma LastNonBlankKept(raws: seq<string>)
    requires raws != [] && raws[|raws| - 1] != ""
    requires !IsSpace(raws[|raws| - 1][|raws[|raws| - 1]| - 1])
    ensures !AllBlank(raws)
  {
    assert Strip(raws[|raws| - 1]) != "";
  }

  lemma {:induction false} SplitLargeNonEmpty(maxSize: nat, overlap: nat, text: string)
    requires text != "" && !IsSpace(text[|text| - 1])
    ensures SplitLarge(maxSize, overlap, text) != []
  {
    LastNonBlankKept(SplitSentences(text));
    PackNonEmpty(maxSize, overlap, SplitSentences(text));
  }

  // --- no overlap: nothing lost, nothing duplicated

  function Pieces(b: Buffer): seq<string> {
    if b.current == "" then b.saved else b.saved + [b.current]
  }

  ghost predicate NoOverlapInv(raws: seq<string>, b: Buffer) {
    && (b.current == "" <==> KeepStripped(raws) == [])
    && (b.current == "" ==> b.saved == [])
    && IsStripped(b.current)
    && Join(Pieces(b), " ") == Join(KeepStripped(raws), " ")
  }

  lemma {:induction false} JoinPiecesSave(b: Buffer, s: string)
    requires b.current != "" && s != ""
    ensures Join(Pieces(Buffer(b.saved + [b.current], s)), " ") == Join(Pieces(b), " ") + " " + s
  {
    assert Pieces(Buffer(b.saved + [b.current], s)) == Pieces(b) + [s];
    JoinSnoc(Pieces(b), s, " ");
  }

  lemma {:induction false} JoinPiecesAppend(b: Buffer, s: string)
    requires b.current != ""
    ensures Join(Pieces(Buffer(b.saved, b.current + " " + s)), " ") == Join(Pieces(b), " ") + " " + s
  {
    var c' := b.current + " " + s;
    if b.saved == [] {
      JoinSnoc([b.current], s, " ");
      assert Pieces(Buffer(b.saved, c')) == [c'];
    } else {
      JoinSnoc(b.saved, c', " ");
      JoinSnoc(b.saved, b.current, " ");
    }
  }

  lemma {:induction false} NoOverlapBlank(raws: seq<string>, b: Buffer, x: string)
    requires NoOverlapInv(raws, b) && Strip(x) == ""
    ensures NoOverlapInv(raws + [x], b)
  {
    KeepStrippedSnoc(raws, x);
    assert KeepStripped(raws) + [] == KeepStripped(raws);
    assert KeepStripped(raws + [x]) == KeepStripped(raws);
  }

  lemma {:induction false} NoOverlapFirst(raws: seq<string>, b: Buffer, x: string)
    requires NoOverlapInv(raws, b) && Strip(x) != "" && b.current == ""
    ensures NoOverlapInv(raws + [x], Buffer([], Strip(x)))
  {
    KeepStrippedSnoc(raws, x);
    assert KeepStripped(raws + [x]) == [Strip(x)];
  }

  lemma {:induction false} NoOverlapSave(raws: seq<string>, b: Buffer, x: string)
    requires NoOverlapInv(raws, b) && Strip(x) != "" && b.current != ""
    ensures NoOverlapInv(raws + [x], Buffer(b.saved + [b.current], Strip(x)))
  {
    var s := Strip(x);
    var k := KeepStripped(raws);
    KeepStrippedSnoc(raws, x);
    JoinSnoc(k, s, " ");
    JoinPiecesSave(b, s);
  }

  lemma {:induction false} NoOverlapAppend(raws: seq<string>, b: Buffer, x: string)
    requires NoOverlapInv(raws, b) && Strip(x) != "" && b.current != ""
    ensures NoOverlapInv(raws + [x], Buffer(b.saved, b.current + " " + Strip(x)))
  {
    var s := Strip(x);
    var k := KeepStripped(raws);
    KeepStrippedSnoc(raws, x);
    assert KeepStripped(raws + [x]) == k + [s];
    JoinSnoc(k, s, " ");
    JoinPiecesAppend(b, s);
    JoinStripped(b.current, s);
  }

  /** Two stripped, non-empty strings joined by a space are stripped. */
  lemma JoinStripped(a: string, s: string)
    requires a != "" && IsStripped(a) && s != "" && IsStripped(s)
    ensures IsStripped(a + " " + s)
  {
    var c := a + " " + s;
    assert c[0] == a[0] && c[|c| - 1] == s[|s| - 1];
  }

  lemma {:induction false} AbsorbNoOverlap(maxSize: nat, raws: seq<string>, b: Buffer, x: string)
    requires NoOverlapInv(raws, b)
    ensures NoOverlapInv(raws + [x], Absorb(maxSize, 0, b, x))
  {
    var s := Strip(x);
    if s == "" {
      assert Absorb(maxSize, 0, b, x) == b;
      NoOverlapBlank(raws, b, x);
    } else if b.current == "" {
      assert Absorb(maxSize, 0, b, x) == Buffer([], s);
      NoOverlapFirst(raws, b, x);
    } else if |b.current| + |s| > maxSize {
      StripStripped(b.current);
      assert Absorb(maxSize, 0, b, x) == Buffer(b.saved + [b.current], s);
      NoOverlapSave(raws, b, x);
    } else {
      assert Absorb(maxSize, 0, b, x) == Buffer(b.saved, b.current + " " + s);
      NoOverlapAppend(raws, b, x);
    }
  }

  lemma {:induction false} AbsorbAllNoOverlap(maxSize: nat, raws: seq<string>)
    ensures NoOverlapInv(raws, AbsorbAll(maxSize, 0, raws))
    decreases |raws|
  {
    if raws != [] {
      var init := raws[..|raws| - 1];
      AbsorbAllNoOverlap(maxSize, init);
      AbsorbNoOverlap(maxSize, init, AbsorbAll(maxSize, 0, init), raws[|raws| - 1]);
      InitLast(raws);
    }
  }

  /** With `overlap == 0` the sub-chunks, joined by single spaces, are exactly
      the non-empty stripped sentences joined by single spaces: no sentence is
      lost or repeated, and their order is kept. */
  lemma {:induction false} PackNoOverlapReconstructs(maxSize: nat, raws: seq<string>)
    ensures Join(Pack(maxSize, 0, raws), " ") == Join(KeepStripped(raws), " ")
  {
    var b := AbsorbAll(maxSize, 0, raws);
    AbsorbAllNoOverlap(maxSize, raws);
    StripStripped(b.current);
  }

  // --- overlap: each sub-chunk starts with the tail of the previous buffer

  /** The tail taken from a buffer is, once its leading white space is cut,
      the same as the tail of the stripped (saved) buffer. */
  lemma {:induction false} TailOfTrimmed(cur: string, overlap: nat)
    requires cur != "" && !IsSpace(cur[|cur| - 1])
    ensures TrimStart(Tail(cur, overlap)) == TrimStart(Tail(TrimStart(cur), overlap))
  {
    var x := TrimStart(cur);
    TrimStartIsSuffix(cur);
    TrimStartCutsSpace(cur);
    var a := |cur| - |x|;
    assert !(|cur| - 1 < a);
    TrimStartAt(x, 0);
    var j := if |cur| > overlap then |cur| - overlap else 0;
    if j >= a {
      assert Tail(x, overlap) == Tail(cur, overlap);
    } else {
      assert Tail(x, overlap) == x;
      var t := cur[j..];
      forall i | 0 <= i < a - j ensures IsSpace(t[i]) {
        assert t[i] == cur[j + i];
      }
      assert t[a - j] == cur[a] == x[0];
      TrimStartAt(t, a - j);
      assert t[a - j..] == x;
    }
  }

  /** Each element after the first starts with the overlap tail of the one
      before it (less its leading white space) and a space. */
  ghost predicate Carries(overlap: nat, xs: seq<string>) {
    forall k :: 0 <= k < |xs| - 1 ==> StartsWith(xs[k + 1], TrimStart(Tail(xs[k], overlap)) + " ")
  }

  ghost predicate OverlapInv(overlap: nat, b: Buffer) {
    && Carries(overlap, b.saved)
    && (b.saved != [] ==>
          StartsWith(TrimStart(b.current), TrimStart(Tail(b.saved[|b.saved| - 1], overlap)) + " "))
  }

  lemma {:induction false} StartsWithExtend(s: string, y: string, p: string)
    requires StartsWith(s, p)
    ensures StartsWith(s + y, p)
  {
    assert (s + y)[..|p|] == s[..|p|];
  }

  lemma {:induction false} CarriesSnoc(overlap: nat, xs: seq<string>, c: string)
    requires Carries(overlap, xs)
    requires xs != [] ==> StartsWith(c, TrimStart(Tail(xs[|xs| - 1], overlap)) + " ")
    ensures Carries(overlap, xs + [c])
  {
    var ys := xs + [c];
    forall k | 0 <= k < |ys| - 1
      ensures StartsWith(ys[k + 1], TrimStart(Tail(ys[k], overlap)) + " ")
    {
      if k < |xs| - 1 {
        assert ys[k] == xs[k] && ys[k + 1] == xs[k + 1];
      } else {
        assert ys[k] == xs[|xs| - 1] && ys[k + 1] == c;
      }
    }
  }

  /** Cutting the leading white space of `t + " " + s` leaves the cut `t`,
      then the space. */
  lemma {:induction false} TrimmedSeed(t: string, s: string)
    requires t != "" && !IsSpace(t[|t| - 1])
    ensures StartsWith(TrimStart(t + " " + s), TrimStart(t) + " ")
  {
    assert !AllSpace(t) by {
      assert !IsSpace(t[|t| - 1]);
    }
    TrimStartAppend(t, " " + s);
    assert t + " " + s == t + (" " + s);
    var p := TrimStart(t) + " ";
    assert TrimStart(t) + (" " + s) == p + s;
    StartsWithExtend(p, s, p);
  }

  /** The buffer a save seeds starts, once trimmed, with the trimmed tail of
      the chunk just saved and a space. */
  lemma {:induction false} SeedStartsWithTail(cur: string, overlap: nat, s: string)
    requires overlap > 0 && cur != "" && !IsSpace(cur[|cur| - 1])
    ensures StartsWith(TrimStart(Tail(cur, overlap) + " " + s), TrimStart(Tail(Strip(cur), overlap)) + " ")
  {
    var t := Tail(cur, overlap);
    assert t[|t| - 1] == cur[|cur| - 1];
    TrimmedSeed(t, s);
    StripIsTrimStart(cur);
    TailOfTrimmed(cur, overlap);
  }

  lemma {:induction false} OverlapSave(overlap: nat, b: Buffer, x: string)
    requires overlap > 0
    requires OverlapInv(overlap, b)
    requires b.current != "" && !IsSpace(b.current[|b.current| - 1])
    ensures OverlapInv(overlap, Buffer(b.saved + [Strip(b.current)], Tail(b.current, overlap) + " " + Strip(x)))
  {
    var cur := b.current;
    StripIsTrimStart(cur);
    SeedStartsWithTail(cur, overlap, Strip(x));
    CarriesSnoc(overlap, b.saved, Strip(cur));
  }

  lemma {:induction false} OverlapAppend(overlap: nat, b: Buffer, x: string)
    requires OverlapInv(overlap, b)
    requires b.current != "" && !IsSpace(b.current[|b.current| - 1])
    ensures OverlapInv(overlap, Buffer(b.saved, b.current + " " + Strip(x)))
  {
    var cur := b.current;
    var s := Strip(x);
    assert !AllSpace(cur) by {
      assert !IsSpace(cur[|cur| - 1]);
    }
    TrimStartAppend(cur, " " + s);
    assert cur + " " + s == cur + (" " + s);
    if b.saved != [] {
      StartsWithExtend(TrimStart(cur), " " + s, TrimStart(Tail(b.saved[|b.saved| - 1], overlap)) + " ");
    }
  }

  lemma {:induction false} AbsorbOverlap(maxSize: nat, overlap: nat, raws: seq<string>, b: Buffer, x: string)
    requires overlap > 0
    requires BufferInv(maxSize, overlap, raws, b) && OverlapInv(overlap, b)
    ensures OverlapInv(overlap, Absorb(maxSize, overlap, b, x))
  {
    var s := Strip(x);
    if s == "" {
      assert Absorb(maxSize, overlap, b, x) == b;
    } else if b.current == "" {
      assert Absorb(maxSize, overlap, b, x) == Buffer(b.saved, s);
    } else if |b.current| + |s| > maxSize {
      assert Absorb(maxSize, overlap, b, x) == Buffer(b.saved + [Strip(b.current)], Tail(b.current, overlap) + " " + s);
      OverlapSave(overlap, b, x);
    } else {
      assert Absorb(maxSize, overlap, b, x) == Buffer(b.saved, b.current + " " + s);
      OverlapAppend(overlap, b, x);
    }
  }

  lemma {:induction false} AbsorbAllOverlap(maxSize: nat, overlap: nat, raws: seq<string>)
    requires overlap > 0
    ensures OverlapInv(overlap, AbsorbAll(maxSize, overlap, raws))
    decreases |raws|
  {
    if raws != [] {
      var init := raws[..|raws| - 1];
      AbsorbAllOverlap(maxSize, overlap, init);
      AbsorbAllInv(maxSize, overlap, init);
      AbsorbOverlap(maxSize, overlap, init, AbsorbAll(maxSize, overlap, init), raws[|raws| - 1]);
    }
  }

  /** The loop's buffer never ends in white space. */
  lemma {:induction false} AbsorbAllEndsClean(maxSize: nat, overlap: nat, raws: seq<string>)
    ensures var b := AbsorbAll(maxSize, overlap, raws);
      b.current != "" ==> !IsSpace(b.current[|b.current| - 1])
  {
    AbsorbAllInv(maxSize, overlap, raws);
  }

  /** With `overlap > 0` every sub-chunk after the first starts with the last
      `min(overlap, len)` characters of the previous one (less any white
      space those start with) followed by one space: the buffer that produced
      it was seeded with that tail, a space and the pending sentence. */
  lemma {:induction false} PackOverlapCarries(maxSize: nat, overlap: nat, raws: seq<string>)
    requires overlap > 0
    ensures Carries(overlap, Pack(maxSize, overlap, raws))
  {
    var b := AbsorbAll(maxSize, overlap, raws);
    AbsorbAllOverlap(maxSize, overlap, raws);
    if Strip(b.current) != "" {
      AbsorbAllEndsClean(maxSize, overlap, raws);
      StripIsTrimStart(b.current);
      CarriesSnoc(overlap, b.saved, Strip(b.current));
      assert Pack(maxSize, overlap, raws) == b.saved + [Strip(b.current)];
    } else {
      assert Pack(maxSize, overlap, raws) == b.saved;
    }
  }

  // --- any overlap: the sub-chunks rebuilt from the kept sentences

  /** The groups laid end to end. */
  function Flatten(gs: seq<seq<string>>): seq<string>
    decreases |gs|
  {
    if gs == [] then [] else Flatten(gs[..|gs| - 1]) + gs[|gs| - 1]
  }

  /** The values `current_chunk` holds just before each save, and at the end,
      when the kept sentences fall into the groups `gs`: the first buffer is
      its group joined by spaces, and each later one is seeded from the
      buffer before it as a save seeds it, then extended by the rest of its
      group. */
  function Buffers(overlap: nat, gs: seq<seq<string>>): (r: seq<string>)
    ensures |r| == |gs|
    decreases |gs|
  {
    if gs == [] then []
    else
      var rs := Buffers(overlap, gs[..|gs| - 1]);
      var g := Join(gs[|gs| - 1], " ");
      rs + [if rs == [] then g else Reseed(rs[|rs| - 1], overlap, g)]
  }

  /** Buffer `k + 1` is the reseed of buffer `k` with group `k + 1` joined by
      spaces: the unstripped tail of buffer `k`, a space, then the sentences
      of group `k + 1`. That the head of each group is the sentence which
      overflowed the buffer before it is stated by `Greedy`. */
  lemma {:induction false} BuffersAt(overlap: nat, gs: seq<seq<string>>, k: nat)
    requires k < |gs|
    ensures Buffers(overlap, gs)[k] ==
      if k == 0 then Join(gs[0], " ") else Reseed(Buffers(overlap, gs)[k - 1], overlap, Join(gs[k], " "))
    decreases |gs|
  {
    var init := gs[..|gs| - 1];
    var rs := Buffers(overlap, init);
    if k < |gs| - 1 {
      BuffersAt(overlap, init, k);
      assert init[k] == gs[k];
      if k == 0 {
        assert init[0] == gs[0];
      }
    }
  }

  /** Buffer `k` as it stood after the first `j` sentences of its group. */
  function Partial(overlap: nat, gs: seq<seq<string>>, k: nat, j: nat): string
    requires k < |gs| && j <= |gs[k]|
  {
    var g := Join(gs[k][..j], " ");
    if k == 0 then g else Reseed(Buffers(overlap, gs)[k - 1], overlap, g)
  }

  lemma {:induction false} PartialFull(overlap: nat, gs: seq<seq<string>>, k: nat)
    requires k < |gs|
    ensures Partial(overlap, gs, k, |gs[k]|) == Buffers(overlap, gs)[k]
  {
    assert gs[k][..|gs[k]|] == gs[k];
    BuffersAt(overlap, gs, k);
  }

  /** The size test of the loop decided every group boundary: a sentence
      joined the buffer only if the buffer length plus the sentence length
      stayed within `maxSize`, and the first sentence of every later group
      is one that did not fit the buffer before it. */
  ghost predicate Greedy(maxSize: nat, overlap: nat, gs: seq<seq<string>>) {
    && (forall k, j :: 0 <= k < |gs| && 0 < j < |gs[k]| ==> Fits(maxSize, overlap, gs, k, j))
    && (forall k :: 0 < k < |gs| ==> Breaks(maxSize, overlap, gs, k))
  }

  /** Sentence `j` of group `k` fitted the buffer it joined. */
  ghost predicate Fits(maxSize: nat, overlap: nat, gs: seq<seq<string>>, k: nat, j: nat)
    requires k < |gs| && 0 < j < |gs[k]|
  {
    |Partial(overlap, gs, k, j)| + |gs[k][j]| <= maxSize
  }

  /** The head of group `k` did not fit buffer `k - 1`. */
  ghost predicate Breaks(maxSize: nat, overlap: nat, gs: seq<seq<string>>, k: nat)
    requires 0 < k < |gs|
  {
    gs[k] != [] && |Buffers(overlap, gs)[k - 1]| + |gs[k][0]| > maxSize
  }

  /** A partial buffer depends only on its own group so far and the buffer before it. */
  lemma {:induction false} PartialSame(overlap: nat, gs: seq<seq<string>>, gs': seq<seq<string>>, k: nat, j: nat)
    requires k < |gs| && k < |gs'| && j <= |gs[k]| && j <= |gs'[k]|
    requires gs'[k][..j] == gs[k][..j]
    requires k > 0 ==> Buffers(overlap, gs')[k - 1] == Buffers(overlap, gs)[k - 1]
    ensures Partial(overlap, gs', k, j) == Partial(overlap, gs, k, j)
  {
  }

  /** Adding a group leaves the earlier buffers as they were. */
  lemma {:induction false} BuffersSnoc(overlap: nat, gs: seq<seq<string>>, g: seq<string>, k: nat)
    requires k < |gs|
    ensures Buffers(overlap, gs + [g])[k] == Buffers(overlap, gs)[k]
  {
    assert (gs + [g])[..|gs|] == gs;
  }

  lemma {:induction false} GreedyFirst(maxSize: nat, overlap: nat, s: string)
    ensures Greedy(maxSize, overlap, [[s]])
  {
  }

  lemma {:induction false} GreedySave(maxSize: nat, overlap: nat, gs: seq<seq<string>>, s: string)
    requires Greedy(maxSize, overlap, gs) && gs != []
    requires |Buffers(overlap, gs)[|gs| - 1]| + |s| > maxSize
    ensures Greedy(maxSize, overlap, gs + [[s]])
  {
    var gs' := gs + [[s]];
    forall k, j | 0 <= k < |gs'| && 0 < j < |gs'[k]|
      ensures Fits(maxSize, overlap, gs', k, j)
    {
      assert k < |gs| && gs'[k] == gs[k];
      if k > 0 {
        BuffersSnoc(overlap, gs, [s], k - 1);
      }
      PartialSame(overlap, gs, gs', k, j);
      assert Fits(maxSize, overlap, gs, k, j);
    }
    forall k | 0 < k < |gs'|
      ensures Breaks(maxSize, overlap, gs', k)
    {
      BuffersSnoc(overlap, gs, [s], k - 1);
      if k < |gs| {
        assert gs'[k] == gs[k];
        assert Breaks(maxSize, overlap, gs, k);
      }
    }
  }

  /** Appending to the last group leaves the earlier groups' partial buffers alone. */
  lemma {:induction false} AppendKeepsPartial(overlap: nat, init: seq<seq<string>>, last: seq<string>, s: string, k: nat, j: nat)
    requires k <= |init| && (k < |init| ==> j <= |init[k]|) && (k == |init| ==> j <= |last|)
    ensures var gs, gs' := init + [last], init + [last + [s]];
      Partial(overlap, gs', k, j) == Partial(overlap, gs, k, j)
  {
    var gs, gs' := init + [last], init + [last + [s]];
    if k < |init| {
      assert gs'[k] == init[k] == gs[k];
    } else {
      assert gs'[k][..j] == last[..j] == gs[k][..j];
    }
    if k > 0 {
      BuffersSnoc(overlap, init, last, k - 1);
      BuffersSnoc(overlap, init, last + [s], k - 1);
    }
    PartialSame(overlap, gs, gs', k, j);
  }

  /** The partial buffer just before the appended sentence is the old last buffer. */
  lemma {:induction false} AppendedPartial(overlap: nat, init: seq<seq<string>>, last: seq<string>, s: string)
    ensures var gs, gs' := init + [last], init + [last + [s]];
      Partial(overlap, gs', |init|, |last|) == Buffers(overlap, gs)[|init|]
  {
    var gs, gs' := init + [last], init + [last + [s]];
    assert gs'[|init|][..|last|] == last == gs[|init|][..|last|];
    if |init| > 0 {
      BuffersSnoc(overlap, init, last, |init| - 1);
      BuffersSnoc(overlap, init, last + [s], |init| - 1);
    }
    PartialSame(overlap, gs, gs', |init|, |last|);
    PartialFull(overlap, gs, |init|);
  }

  /** The sentence appended to the last group fitted its buffer, and the
      earlier sentences fitted theirs as before. */
  lemma {:induction false} GreedyAppendFits(maxSize: nat, overlap: nat, init: seq<seq<string>>, last: seq<string>, s: string, k: nat, j: nat)
    requires Greedy(maxSize, overlap, init + [last])
    requires |Buffers(overlap, init + [last])[|init|]| + |s| <= maxSize
    requires k <= |init| && 0 < j < |(init + [last + [s]])[k]|
    ensures Fits(maxSize, overlap, init + [last + [s]], k, j)
  {
    var gs, gs' := init + [last], init + [last + [s]];
    if k < |init| {
      assert gs'[k] == init[k];
    }
    if k == |init| && j == |last| {
      AppendedPartial(overlap, init, last, s);
      assert gs'[k][j] == s;
    } else {
      AppendKeepsPartial(overlap, init, last, s, k, j);
      if k < |init| {
        assert gs'[k] == init[k] == gs[k];
      } else {
        assert gs'[k][j] == last[j] == gs[k][j];
      }
      assert Fits(maxSize, overlap, gs, k, j);
    }
  }

  lemma {:induction false} GreedyAppend(maxSize: nat, overlap: nat, init: seq<seq<string>>, last: seq<string>, s: string)
    requires Greedy(maxSize, overlap, init + [last]) && last != []
    requires |Buffers(overlap, init + [last])[|init|]| + |s| <= maxSize
    ensures Greedy(maxSize, overlap, init + [last + [s]])
  {
    var gs, gs' := init + [last], init + [last + [s]];
    forall k, j | 0 <= k < |gs'| && 0 < j < |gs'[k]|
      ensures Fits(maxSize, overlap, gs', k, j)
    {
      GreedyAppendFits(maxSize, overlap, init, last, s, k, j);
    }
    forall k | 0 < k < |gs'|
      ensures Breaks(maxSize, overlap, gs', k)
    {
      GreedyAppendBreaks(maxSize, overlap, init, last, s, k);
    }
  }

  /** Appending to the last group moves no group boundary. */
  lemma {:induction false} GreedyAppendBreaks(maxSize: nat, overlap: nat, init: seq<seq<string>>, last: seq<string>, s: string, k: nat)
    requires Greedy(maxSize, overlap, init + [last]) && last != []
    requires 0 < k <= |init|
    ensures Breaks(maxSize, overlap, init + [last + [s]], k)
  {
    var gs, gs' := init + [last], init + [last + [s]];
    BuffersSnoc(overlap, init, last, k - 1);
    BuffersSnoc(overlap, init, last + [s], k - 1);
    assert Breaks(maxSize, overlap, gs, k);
    if k < |init| {
      assert gs'[k] == init[k] == gs[k];
    } else {
      assert gs'[k][0] == last[0] == gs[k][0];
    }
  }

  /** `out` is what packing gives when the kept sentences `ks` fall, in
      order, into the non-empty groups `gs` that the size test of the loop
      draws: sub-chunk `k` is buffer `k`, stripped. */
  ghost predicate Rebuilds(maxSize: nat, overlap: nat, ks: seq<string>, out: seq<string>, gs: seq<seq<string>>) {
    && Flatten(gs) == ks
    && (forall i :: 0 <= i < |gs| ==> gs[i] != [])
    && Greedy(maxSize, overlap, gs)
    && |out| == |gs|
    && (forall k :: 0 <= k < |out| ==> out[k] == Strip(Buffers(overlap, gs)[k]))
  }

  /** The loop state is the buffers of the groups of the kept sentences `ks`
      so far: the saved chunks are the earlier buffers stripped, and the
      current buffer is the last. */
  ghost predicate RebuildInv(overlap: nat, ks: seq<string>, b: Buffer, gs: seq<seq<string>>) {
    && Flatten(gs) == ks
    && (forall i :: 0 <= i < |gs| ==> gs[i] != [])
    && (if b.current == "" then gs == [] && b.saved == []
        else |gs| == |b.saved| + 1 && Buffers(overlap, gs)[|b.saved|] == b.current)
    && (forall k :: 0 <= k < |b.saved| ==> b.saved[k] == Strip(Buffers(overlap, gs)[k]))
  }

  lemma {:induction false} RebuildFirst(overlap: nat, s: string)
    requires s != ""
    ensures RebuildInv(overlap, [s], Buffer([], s), [[s]])
  {
    assert [[s]][..0] == [];
  }

  lemma {:induction false} RebuildSave(overlap: nat, ks: seq<string>, b: Buffer, gs: seq<seq<string>>, s: string)
    requires RebuildInv(overlap, ks, b, gs) && b.current != "" && s != ""
    ensures RebuildInv(overlap, ks + [s], Buffer(b.saved + [Strip(b.current)], Reseed(b.current, overlap, s)), gs + [[s]])
  {
    var gs' := gs + [[s]];
    var saved' := b.saved + [Strip(b.current)];
    assert gs'[..|gs|] == gs;
    forall i | 0 <= i < |gs'|
      ensures gs'[i] != []
    {
      if i < |gs| {
        assert gs'[i] == gs[i];
      }
    }
    forall k | 0 <= k < |saved'|
      ensures saved'[k] == Strip(Buffers(overlap, gs')[k])
    {
      if k < |b.saved| {
        assert saved'[k] == b.saved[k];
      }
    }
  }

  lemma {:induction false} RebuildAppend(overlap: nat, b: Buffer, gs: seq<seq<string>>, s: string) returns (gs': seq<seq<string>>)
    requires gs != [] && gs[|gs| - 1] != []
    requires |gs| == |b.saved| + 1 && Buffers(overlap, gs)[|b.saved|] == b.current
    ensures |gs'| == |gs| && gs'[..|gs| - 1] == gs[..|gs| - 1] && gs'[|gs| - 1] == gs[|gs| - 1] + [s]
    ensures gs == gs[..|gs| - 1] + [gs[|gs| - 1]] && gs' == gs[..|gs| - 1] + [gs[|gs| - 1] + [s]]
    ensures Flatten(gs') == Flatten(gs) + [s]
    ensures Buffers(overlap, gs')[|b.saved|] == b.current + " " + s
    ensures forall k :: 0 <= k < |b.saved| ==> Buffers(overlap, gs')[k] == Buffers(overlap, gs)[k]
  {
    var n := |gs| - 1;
    var init, g := gs[..n], gs[n];
    gs' := init + [g + [s]];
    assert gs'[..n] == init && gs'[n] == g + [s];
    assert gs == init + [g];
    var rs := Buffers(overlap, init);
    JoinSnoc(g, s, " ");
    var j := Join(g, " ");
    assert Flatten(gs') == Flatten(init) + (g + [s]);
    assert Flatten(gs) == Flatten(init) + g;
    assert Flatten(init) + (g + [s]) == Flatten(init) + g + [s];
    if rs != [] {
      var t := rs[|rs| - 1];
      assert Reseed(t, overlap, j + " " + s) == Reseed(t, overlap, j) + " " + s;
    }
  }

  lemma {:induction false} RebuildExtend(maxSize: nat, overlap: nat, ks: seq<string>, b: Buffer, gs: seq<seq<string>>, s: string)
    returns (gs': seq<seq<string>>)
    requires RebuildInv(overlap, ks, b, gs) && b.current != ""
    requires Greedy(maxSize, overlap, gs) && |b.current| + |s| <= maxSize
    ensures RebuildInv(overlap, ks + [s], Buffer(b.saved, b.current + " " + s), gs')
    ensures Greedy(maxSize, overlap, gs')
  {
    gs' := RebuildAppend(overlap, b, gs, s);
    GreedyAppend(maxSize, overlap, gs[..|gs| - 1], gs[|gs| - 1], s);
    forall i | 0 <= i < |gs'|
      ensures gs'[i] != []
    {
      if i < |gs| - 1 {
        assert gs'[i] == gs'[..|gs| - 1][i] == gs[..|gs| - 1][i];
      }
    }
  }

  lemma {:induction false} RebuildStep(maxSize: nat, overlap: nat, raws: seq<string>, b: Buffer, gs: seq<seq<string>>, x: string)
    returns (gs': seq<seq<string>>)
    requires RebuildInv(overlap, KeepStripped(raws), b, gs) && Greedy(maxSize, overlap, gs)
    ensures RebuildInv(overlap, KeepStripped(raws + [x]), Absorb(maxSize, overlap, b, x), gs')
    ensures Greedy(maxSize, overlap, gs')
  {
    KeepStrippedSnoc(raws, x);
    var ks := KeepStripped(raws);
    var s := Strip(x);
    if s == "" {
      assert ks + Kept(x) == ks;
      gs' := gs;
    } else {
      assert ks + Kept(x) == ks + [s];
      if b.current == "" {
        assert ks == [] by {
          assert Flatten(gs) == [];
        }
        RebuildFirst(overlap, s);
        GreedyFirst(maxSize, overlap, s);
        assert [] + [s] == [s];
        gs' := [[s]];
      } else if |b.current| + |s| > maxSize {
        assert Buffers(overlap, gs)[|gs| - 1] == b.current;
        RebuildSave(overlap, ks, b, gs, s);
        GreedySave(maxSize, overlap, gs, s);
        gs' := gs + [[s]];
      } else {
        gs' := RebuildExtend(maxSize, overlap, ks, b, gs, s);
      }
    }
  }

  lemma {:induction false} RebuildAll(maxSize: nat, overlap: nat, raws: seq<string>) returns (gs: seq<seq<string>>)
    ensures RebuildInv(overlap, KeepStripped(raws), AbsorbAll(maxSize, overlap, raws), gs)
    ensures Greedy(maxSize, overlap, gs)
    decreases |raws|
  {
    if raws == [] {
      gs := [];
    } else {
      var init, x := raws[..|raws| - 1], raws[|raws| - 1];
      assert init + [x] == raws;
      var gs0 := RebuildAll(maxSize, overlap, init);
      gs := RebuildStep(maxSize, overlap, init, AbsorbAll(maxSize, overlap, init), gs0, x);
      assert KeepStripped(init + [x]) == KeepStripped(raws);
      assert Absorb(maxSize, overlap, AbsorbAll(maxSize, overlap, init), x) == AbsorbAll(maxSize, overlap, raws);
    }
  }

  lemma {:induction false} FlushRebuilds(maxSize: nat, overlap: nat, ks: seq<string>, b: Buffer, gs: seq<seq<string>>)
    requires RebuildInv(overlap, ks, b, gs) && b.current != "" && Greedy(maxSize, overlap, gs)
    ensures Rebuilds(maxSize, overlap, ks, b.saved + [Strip(b.current)], gs)
  {
    var out := b.saved + [Strip(b.current)];
    forall k | 0 <= k < |out|
      ensures out[k] == Strip(Buffers(overlap, gs)[k])
    {
      if k < |b.saved| {
        assert out[k] == b.saved[k];
      }
    }
  }

  /** For any overlap, packing loses, repeats and reorders no sentence: the
      kept sentences fall, in order, into non-empty groups whose boundaries
      are exactly where the size test fails (`Greedy`), and sub-chunk `k` is
      buffer `k` of those groups, stripped (see `BuffersAt`). */
  lemma {:induction false} PackRebuilds(maxSize: nat, overlap: nat, raws: seq<string>)
    ensures exists gs :: Rebuilds(maxSize, overlap, KeepStripped(raws), Pack(maxSize, overlap, raws), gs)
  {
    var b := AbsorbAll(maxSize, overlap, raws);
    var gs := RebuildAll(maxSize, overlap, raws);
    AbsorbAllInv(maxSize, overlap, raws);
    if b.current != "" {
      SaveKeepsBound(maxSize, overlap, raws, b.current);
      FlushRebuilds(maxSize, overlap, KeepStripped(raws), b, gs);
    } else {
      assert Strip(b.current) == "";
    }
    assert Rebuilds(maxSize, overlap, KeepStripped(raws), Pack(maxSize, overlap, raws), gs);
  }

  /** A character that is not a terminator joins the first piece after it. */
  lemma PlainCharStep(s: string, i: nat)
    requires i < |s| && !IsTerminator(s[i])
    ensures var mid := SplitFrom(s, i + 1); SplitFrom(s, i) == [s[i..i + 1] + mid[0]] + mid[1..]
  {
    assert SeparatorAt(s, i) == 0 && NoSeparatorStep(s, i) == 1;
  }

  lemma GlueFirst(c: string, a: string, rest: seq<string>)
    requires rest != []
    ensures var mid := [a + rest[0]] + rest[1..]; [c + mid[0]] + mid[1..] == [c + a + rest[0]] + rest[1..]
  {
    var mid := [a + rest[0]] + rest[1..];
    assert mid[0] == a + rest[0] && mid[1..] == rest[1..];
    assert c + (a + rest[0]) == c + a + rest[0];
  }

  lemma SliceJoin(s: string, i: nat, k: nat, j: nat)
    requires i <= k <= j <= |s|
    ensures s[i..k] + s[k..j] == s[i..j]
  {
  }

  /** Text with no terminator in it joins the piece that follows it. */
  lemma {:induction false} SplitFromNoTerminators(s: string, i: nat, j: nat)
    requires i <= j <= |s|
    requires forall k :: i <= k < j ==> !IsTerminator(s[k])
    ensures var rest := SplitFrom(s, j); SplitFrom(s, i) == [s[i..j] + rest[0]] + rest[1..]
    decreases j - i
  {
    var rest := SplitFrom(s, j);
    if i < j {
      PlainCharStep(s, i);
      SplitFromNoTerminators(s, i + 1, j);
      GlueFirst(s[i..i + 1], s[i + 1..j], rest);
      SliceJoin(s, i, i + 1, j);
    } else {
      assert s[i..j] + rest[0] == rest[0];
      assert [rest[0]] + rest[1..] == rest;
    }
  }

  /** ". " followed by the end or by a character other than white space is
      a separator of length 2. */
  lemma DotSpaceSeparator(s: string, m: nat)
    requires m + 2 <= |s| && s[m] == '.' && s[m + 1] == ' '
    requires m + 2 == |s| || !IsSpace(s[m + 2])
    ensures SeparatorAt(s, m) == 2
  {
    assert TerminatorRun(s, m + 1) == 0;
    assert SpaceRun(s, m + 2) == 0;
  }

  /** A separator is dropped and starts a new, empty piece. */
  lemma SeparatorStep(s: string, i: nat)
    requires i <= |s| && SeparatorAt(s, i) > 0
    ensures SplitFrom(s, i) == [""] + SplitFrom(s, i + SeparatorAt(s, i))
  {
  }

  /** The end of a text without terminators is its last piece. */
  lemma PlainTail(s: string, i: nat)
    requires i <= |s|
    requires forall k :: i <= k < |s| ==> !IsTerminator(s[k])
    ensures SplitFrom(s, i) == [s[i..]]
  {
    SplitFromNoTerminators(s, i, |s|);
    assert SplitFrom(s, |s|) == [""];
    assert s[i..|s|] + "" == s[i..];
  }

  /** The sentence separator ". " is dropped with its punctuation: the two
      sentences around it come back without it. */
  lemma {:induction false} PunctuationIsDropped(x: string, y: string)
    requires forall k :: 0 <= k < |x| ==> !IsTerminator(x[k])
    requires forall k :: 0 <= k < |y| ==> !IsTerminator(y[k])
    requires y == "" || !IsSpace(y[0])
    ensures SplitSentences(x + ". " + y) == [x, y]
  {
    var s := x + ". " + y;
    var m := |x|;
    assert s[0..m] == x && s[m..m + 2] == ". " && s[m + 2..] == y;
    assert s[m] == '.' && s[m + 1] == ' ';
    DotSpaceSeparator(s, m);
    SeparatorStep(s, m);
    PlainTail(s, m + 2);
    SplitFromNoTerminators(s, 0, m);
    var rest := [""] + [y];
    assert rest[0] == "" && rest[1..] == [y];
    assert x + rest[0] == x;
  }

  /** The bound `maxSize + 1` is reached without any long sentence: "ab" and
      "c" fit the limit of 3 together (2 + 1), and the joining space makes 4. */
  lemma {:induction false} BoundIsReached()
    ensures Pack(3, 0, ["ab", "c"]) == ["ab c"]
  {
    StripStripped("ab");
    StripStripped("c");
    StripStripped("ab c");
    var raws := ["ab", "c"];
    assert raws[..1] == ["ab"] && [raws[0]][..0] == [];
    assert AbsorbAll(3, 0, ["ab"]) == Buffer([], "ab");
    assert AbsorbAll(3, 0, raws) == Buffer([], "ab c");
  }

  // ---------------------------------------------------------------------
  // Paragraphs and numbering (chunk_text, chunk_chapter)
  // ---------------------------------------------------------------------

  /** `[p.strip() for p in text.split('\n\n') if p.strip()]`. */
  function Paragraphs(text: string): seq<string> {
    KeepStripped(SplitOnBlankLine(text))
  }

  lemma {:induction false} KeepStrippedEmpty(xs: seq<string>)
    ensures KeepStripped(xs) == [] <==> forall k :: 0 <= k < |xs| ==> AllSpace(xs[k])
    decreases |xs|
  {
    if xs != [] {
      KeepStrippedEmpty(xs[1..]);
      assert forall k :: 1 <= k < |xs| ==> xs[1..][k - 1] == xs[k];
    }
  }

  /** A text yields no paragraph exactly when it is all white space. */
  lemma {:induction false} ParagraphsEmpty(text: string)
    ensures Paragraphs(text) == [] <==> AllSpace(text)
  {
    var parts := SplitOnBlankLine(text);
    KeepStrippedEmpty(parts);
    if AllSpace(text) {
      SplitOnBlankLineBlank(text);
    } else {
      SplitOnBlankLineNonBlank(text);
    }
  }

  function NumberPieces(pieces: seq<string>, chapterId: Option<string>, originalLength: nat, first: nat): seq<Chunk> {
    seq(|pieces|, j requires 0 <= j < |pieces| =>
      Chunk(pieces[j], ChunkMetadata(first + j, chapterId, SubChunk, originalLength, None, None)))
  }

  /** The sub-chunker `chunk_text` hands long paragraphs to. */
  function SubChunker(maxSize: nat, overlap: nat): string -> seq<string> {
    p => SplitLarge(maxSize, overlap, p)
  }

  /** The chunks one paragraph contributes, numbered from `first`; `split`
      gives the sub-chunks of a paragraph over the limit. */
  function ParagraphChunks(maxSize: nat, split: string -> seq<string>, p: string, chapterId: Option<string>, first: nat): seq<Chunk> {
    if |p| <= maxSize then [Chunk(p, ChunkMetadata(first, chapterId, Paragraph, |p|, None, None))]
    else NumberPieces(split(p), chapterId, |p|, first)
  }

  function ChunkParagraphs(maxSize: nat, split: string -> seq<string>, ps: seq<string>, chapterId: Option<string>): seq<Chunk>
    decreases |ps|
  {
    if ps == [] then []
    else
      var pre := ChunkParagraphs(maxSize, split, ps[..|ps| - 1], chapterId);
      pre + ParagraphChunks(maxSize, split, ps[|ps| - 1], chapterId, |pre|)
  }

  lemma {:induction false} ChunkParagraphsStep(maxSize: nat, split: string -> seq<string>, ps: seq<string>, i: nat, chapterId: Option<string>)
    requires i < |ps|
    ensures var pre := ChunkParagraphs(maxSize, split, ps[..i], chapterId);
      ChunkParagraphs(maxSize, split, ps[..i + 1], chapterId) == pre + ParagraphChunks(maxSize, split, ps[i], chapterId, |pre|)
  {
    assert ps[..i + 1][..i] == ps[..i];
  }

  lemma {:induction false} NumberPiecesSnoc(pieces: seq<string>, j: nat, chapterId: Option<string>, originalLength: nat, first: nat)
    requires j < |pieces|
    ensures NumberPieces(pieces[..j + 1], chapterId, originalLength, first)
      == NumberPieces(pieces[..j], chapterId, originalLength, first)
         + [Chunk(pieces[j], ChunkMetadata(first + j, chapterId, SubChunk, originalLength, None, None))]
  {
  }

  /** What `chunk_text` returns. */
  function ChunkTextSpec(maxSize: nat, overlap: nat, text: string, chapterId: Option<string>): seq<Chunk> {
    ChunkParagraphs(maxSize, SubChunker(maxSize, overlap), Paragraphs(text), chapterId)
  }

  /** `chunk_chapter`'s second pass: add `section_number` and `total_chunks`. */
  function Sectioned(raw: seq<Chunk>): seq<Chunk> {
    seq(|raw|, i requires 0 <= i < |raw| =>
      Chunk(raw[i].content, raw[i].metadata.(sectionNumber := Some(i + 1), totalChunks := Some(|raw|))))
  }

  /** What `chunk_chapter` returns. */
  function ChunkChapterSpec(maxSize: nat, overlap: nat, content: string, chapterId: string): seq<Chunk> {
    Sectioned(ChunkTextSpec(maxSize, overlap, content, Some(chapterId)))
  }

  /** A sub-chunker that gives every long stripped paragraph at least one
      piece and never an empty one. */
  ghost predicate SplitsWell(maxSize: nat, split: string -> seq<string>) {
    forall p :: p != "" && IsStripped(p) && |p| > maxSize ==>
      split(p) != [] && forall c :: c in split(p) ==> c != ""
  }

  lemma {:induction false} SubChunkerSplitsWell(maxSize: nat, overlap: nat)
    ensures SplitsWell(maxSize, SubChunker(maxSize, overlap))
  {
    forall p | p != "" && IsStripped(p) && |p| > maxSize
      ensures SplitLarge(maxSize, overlap, p) != []
      ensures forall c :: c in SplitLarge(maxSize, overlap, p) ==> c != ""
    {
      SplitLargeNonEmpty(maxSize, overlap, p);
      PackBound(maxSize, overlap, SplitSentences(p));
    }
  }

  /** Where a chunk comes from: a paragraph that fits is kept whole as a
      "paragraph" chunk; a longer one gives "sub_chunk" chunks that are its
      sub-chunks. Either way `original_length` is the paragraph's length. */
  ghost predicate FromParagraph(maxSize: nat, split: string -> seq<string>, c: Chunk, p: string) {
    && c.metadata.originalLength == |p|
    && (if |p| <= maxSize then c.metadata.kind == Paragraph && c.content == p
        else c.metadata.kind == SubChunk && c.content in split(p))
  }

  ghost predicate WellNumbered(maxSize: nat, split: string -> seq<string>, chunks: seq<Chunk>, ps: seq<string>, chapterId: Option<string>, first: nat) {
    forall i :: 0 <= i < |chunks| ==>
      && chunks[i].metadata.chunkId == first + i
      && chunks[i].metadata.chapterId == chapterId
      && chunks[i].metadata.sectionNumber == None
      && chunks[i].metadata.totalChunks == None
      && chunks[i].content != ""
      && exists k :: 0 <= k < |ps| && FromParagraph(maxSize, split, chunks[i], ps[k])
  }

  lemma {:induction false} ParagraphChunksFacts(maxSize: nat, split: string -> seq<string>, p: string, chapterId: Option<string>, first: nat)
    requires SplitsWell(maxSize, split)
    requires p != "" && IsStripped(p)
    ensures var q := ParagraphChunks(maxSize, split, p, chapterId, first);
      && q != [] && WellNumbered(maxSize, split, q, [p], chapterId, first)
      && (|p| <= maxSize ==> |q| == 1 && q[0].content == p && q[0].metadata.kind == Paragraph)
      && (|p| > maxSize ==>
            && |q| == |split(p)|
            && forall i :: 0 <= i < |q| ==> q[i].content == split(p)[i] && q[i].metadata.kind == SubChunk)
  {
    var q := ParagraphChunks(maxSize, split, p, chapterId, first);
    if |p| > maxSize {
      var subs := split(p);
      forall i | 0 <= i < |q| ensures FromParagraph(maxSize, split, q[i], [p][0]) {
        assert q[i].content == subs[i];
      }
    } else {
      assert FromParagraph(maxSize, split, q[0], [p][0]);
    }
  }

  lemma {:induction false} WellNumberedConcat(maxSize: nat, split: string -> seq<string>, pre: seq<Chunk>, q: seq<Chunk>,
                                             init: seq<string>, last: string, chapterId: Option<string>)
    requires WellNumbered(maxSize, split, pre, init, chapterId, 0)
    requires WellNumbered(maxSize, split, q, [last], chapterId, |pre|)
    ensures WellNumbered(maxSize, split, pre + q, init + [last], chapterId, 0)
  {
    var r := pre + q;
    var ps := init + [last];
    forall i | 0 <= i < |r|
      ensures r[i].metadata.chunkId == i
      ensures exists k :: 0 <= k < |ps| && FromParagraph(maxSize, split, r[i], ps[k])
    {
      if i < |pre| {
        assert r[i] == pre[i];
        var k :| 0 <= k < |init| && FromParagraph(maxSize, split, pre[i], init[k]);
        assert ps[k] == init[k];
      } else {
        assert r[i] == q[i - |pre|];
        assert ps[|init|] == last;
        assert FromParagraph(maxSize, split, r[i], ps[|init|]);
      }
    }
  }

  lemma {:induction false} ChunkParagraphsFacts(maxSize: nat, split: string -> seq<string>, ps: seq<string>, chapterId: Option<string>)
    requires SplitsWell(maxSize, split)
    requires forall p :: p in ps ==> p != "" && IsStripped(p)
    ensures var r := ChunkParagraphs(maxSize, split, ps, chapterId);
      (r == [] <==> ps == []) && WellNumbered(maxSize, split, r, ps, chapterId, 0)
    decreases |ps|
  {
    if ps != [] {
      var init := ps[..|ps| - 1];
      var last := ps[|ps| - 1];
      assert forall p :: p in init ==> p in ps;
      ChunkParagraphsFacts(maxSize, split, init, chapterId);
      assert last in ps;
      var pre := ChunkParagraphs(maxSize, split, init, chapterId);
      var q := ParagraphChunks(maxSize, split, last, chapterId, |pre|);
      ParagraphChunksFacts(maxSize, split, last, chapterId, |pre|);
      WellNumberedConcat(maxSize, split, pre, q, init, last, chapterId);
      InitLast(ps);
      assert ChunkParagraphs(maxSize, split, ps, chapterId) == pre + q;
    }
  }

  /** The texts a paragraph contributes: itself when it fits, else its sub-chunks. */
  function ParagraphPieces(maxSize: nat, split: string -> seq<string>, p: string): seq<string> {
    if |p| <= maxSize then [p] else split(p)
  }

  /** The pieces of every paragraph, paragraph by paragraph. */
  function AllPieces(maxSize: nat, split: string -> seq<string>, ps: seq<string>): seq<string>
    decreases |ps|
  {
    if ps == [] then [] else AllPieces(maxSize, split, ps[..|ps| - 1]) + ParagraphPieces(maxSize, split, ps[|ps| - 1])
  }

  /** The `content` fields of a list of chunks, in order. */
  function ContentsOf(cs: seq<Chunk>): seq<string> {
    seq(|cs|, i requires 0 <= i < |cs| => cs[i].content)
  }

  lemma {:induction false} ContentsOfConcat(a: seq<Chunk>, b: seq<Chunk>)
    ensures ContentsOf(a + b) == ContentsOf(a) + ContentsOf(b)
  {
    var l, r := ContentsOf(a + b), ContentsOf(a) + ContentsOf(b);
    forall i | 0 <= i < |l| ensures l[i] == r[i] {
      if i < |a| {
        assert (a + b)[i] == a[i];
      } else {
        assert (a + b)[i] == b[i - |a|];
      }
    }
  }

  /** The chunks `chunk_text` emits carry, in order, exactly the pieces of
      its paragraphs: each fitting paragraph once, whole, and each long one
      as its sub-chunks; nothing is dropped, repeated or reordered. */
  lemma {:induction false} ChunkParagraphsContents(maxSize: nat, split: string -> seq<string>, ps: seq<string>, chapterId: Option<string>)
    ensures ContentsOf(ChunkParagraphs(maxSize, split, ps, chapterId)) == AllPieces(maxSize, split, ps)
    decreases |ps|
  {
    if ps != [] {
      var init, last := ps[..|ps| - 1], ps[|ps| - 1];
      ChunkParagraphsContents(maxSize, split, init, chapterId);
      var pre := ChunkParagraphs(maxSize, split, init, chapterId);
      var q := ParagraphChunks(maxSize, split, last, chapterId, |pre|);
      ContentsOfConcat(pre, q);
      assert ContentsOf(q) == ParagraphPieces(maxSize, split, last);
    }
  }

  /** The properties of `chunk_text`: chunk ids run 0, 1, 2, ... in emission
      order, every chunk carries the chapter id and non-empty content, every
      chunk comes from one paragraph as `FromParagraph` says, and there are
      no chunks exactly when the text is all white space. */
  lemma {:induction false} ChunkTextFacts(maxSize: nat, overlap: nat, text: string, chapterId: Option<string>)
    ensures var r := ChunkTextSpec(maxSize, overlap, text, chapterId);
      && (r == [] <==> AllSpace(text))
      && WellNumbered(maxSize, SubChunker(maxSize, overlap), r, Paragraphs(text), chapterId, 0)
      && ContentsOf(r) == AllPieces(maxSize, SubChunker(maxSize, overlap), Paragraphs(text))
  {
    ParagraphsEmpty(text);
    SubChunkerSplitsWell(maxSize, overlap);
    ChunkParagraphsFacts(maxSize, SubChunker(maxSize, overlap), Paragraphs(text), chapterId);
    ChunkParagraphsContents(maxSize, SubChunker(maxSize, overlap), Paragraphs(text), chapterId);
  }

  /** `chunk_chapter` keeps count, order, content and the other metadata, and
      numbers sections 1, 2, ... with the same total on every chunk. */
  lemma {:induction false} SectionedFacts(raw: seq<Chunk>)
    ensures var r := Sectioned(raw);
      && |r| == |raw|
      && forall i :: 0 <= i < |r| ==>
           && r[i].content == raw[i].content
           && r[i].metadata.sectionNumber == Some(i + 1)
           && r[i].metadata.totalChunks == Some(|r|)
           && r[i].metadata.(sectionNumber := None, totalChunks := None)
              == raw[i].metadata.(sectionNumber := None, totalChunks := None)
  {
  }

  // ---------------------------------------------------------------------
  // The chunker itself
  // ---------------------------------------------------------------------

  class TextChunker {
    const maxChunkSize: nat
    const overlap: nat

    constructor (maxChunkSize: nat, overlap: nat)
      ensures this.maxChunkSize == maxChunkSize && this.overlap == overlap
    {
      this.maxChunkSize := maxChunkSize;
      this.overlap := overlap;
    }

    /** `chunk_text`. */
    method ChunkText(text: string, chapterId: Option<string>) returns (chunks: seq<Chunk>)
      ensures chunks == ChunkTextSpec(maxChunkSize, overlap, text, chapterId)
    {
      var paragraphs := Paragraphs(text);
      chunks := [];
      for i := 0 to |paragraphs|
        invariant chunks == ChunkParagraphs(maxChunkSize, SubChunker(maxChunkSize, overlap), paragraphs[..i], chapterId)
      {
        ChunkParagraphsStep(maxChunkSize, SubChunker(maxChunkSize, overlap), paragraphs, i, chapterId);
        chunks := AppendParagraph(chunks, paragraphs[i], chapterId);
      }
      assert paragraphs[..|paragraphs|] == paragraphs;
    }

    /** One pass of `chunk_text`'s paragraph loop: a paragraph within the
        limit is one "paragraph" chunk, a longer one is split, and
        `chunk_id` is the number of chunks so far. */
    method AppendParagraph(chunks: seq<Chunk>, paragraph: string, chapterId: Option<string>) returns (r: seq<Chunk>)
      ensures r == chunks + ParagraphChunks(maxChunkSize, SubChunker(maxChunkSize, overlap), paragraph, chapterId, |chunks|)
    {
      var chunkId := |chunks|;
      if |paragraph| <= maxChunkSize {
        var metadata := ChunkMetadata(chunkId, chapterId, Paragraph, |paragraph|, None, None);
        r := chunks + [Chunk(paragraph, metadata)];
      } else {
        var subChunks := SplitLargeText(paragraph);
        assert SubChunker(maxChunkSize, overlap)(paragraph) == subChunks;
        r := AppendSubChunks(chunks, subChunks, chapterId, |paragraph|);
      }
    }

    /** The inner loop of `chunk_text`: one "sub_chunk" chunk per piece of
        an over-long paragraph, numbered on from the chunks so far. */
    method AppendSubChunks(chunks: seq<Chunk>, subChunks: seq<string>, chapterId: Option<string>, len: nat) returns (r: seq<Chunk>)
      ensures r == chunks + NumberPieces(subChunks, chapterId, len, |chunks|)
    {
      r := chunks;
      var chunkId := |chunks|;
      for j := 0 to |subChunks|
        invariant r == chunks + NumberPieces(subChunks[..j], chapterId, len, |chunks|)
        invariant chunkId == |r|
      {
        var metadata := ChunkMetadata(chunkId, chapterId, SubChunk, len, None, None);
        NumberPiecesSnoc(subChunks, j, chapterId, len, |chunks|);
        ghost var done := NumberPieces(subChunks[..j], chapterId, len, |chunks|);
        assert (chunks + done) + [Chunk(subChunks[j], metadata)] == chunks + (done + [Chunk(subChunks[j], metadata)]);
        r := r + [Chunk(subChunks[j], metadata)];
        chunkId := chunkId + 1;
      }
      assert subChunks[..|subChunks|] == subChunks;
    }

    /** `_split_large_text`. */
    method SplitLargeText(text: string) returns (chunks: seq<string>)
      ensures chunks == SplitLarge(maxChunkSize, overlap, text)
    {
      var sentences := SplitSentences(text);
      chunks := PackSentences(sentences);
    }

    /** The loop of `_split_large_text` over the raw sentences, and the final flush. */
    method PackSentences(sentences: seq<string>) returns (chunks: seq<string>)
      ensures chunks == Pack(maxChunkSize, overlap, sentences)
    {
      chunks := [];
      var currentChunk := "";
      var currentLength := 0;
      for i := 0 to |sentences|
        invariant Buffer(chunks, currentChunk) == AbsorbAll(maxChunkSize, overlap, sentences[..i])
        invariant currentLength == |currentChunk|
      {
        assert sentences[..i + 1][..i] == sentences[..i];
        var sentence := Strip(sentences[i]);
        if sentence != "" {
          if currentLength + |sentence| > maxChunkSize && currentChunk != "" {
            chunks := chunks + [Strip(currentChunk)];
            if overlap > 0 {
              var overlapStart := if |currentChunk| - overlap > 0 then |currentChunk| - overlap else 0;
              currentChunk := currentChunk[overlapStart..] + " " + sentence;
              currentLength := |currentChunk|;
            } else {
              currentChunk := sentence;
              currentLength := |sentence|;
            }
          } else {
            currentChunk := if currentChunk != "" then currentChunk + " " + sentence else sentence;
            currentLength := currentLength + |sentence| + (if currentChunk != sentence then 1 else 0);
          }
        }
      }
      assert sentences[..|sentences|] == sentences;
      if Strip(currentChunk) != "" {
        chunks := chunks + [Strip(currentChunk)];
      }
    }

    /** `chunk_chapter`. */
    method ChunkChapter(chapterContent: string, chapterId: string) returns (processed: seq<Chunk>)
      ensures processed == ChunkChapterSpec(maxChunkSize, overlap, chapterContent, chapterId)
    {
      var rawChunks := ChunkText(chapterContent, Some(chapterId));
      processed := NumberSections(rawChunks);
    }

    /** The loop of `chunk_chapter`: copy each chunk, adding its section
        number and the total. */
    method NumberSections(rawChunks: seq<Chunk>) returns (processed: seq<Chunk>)
      ensures processed == Sectioned(rawChunks)
    {
      processed := [];
      for i := 0 to |rawChunks|
        invariant |processed| == i
        invariant forall j :: 0 <= j < i ==>
          processed[j] == Chunk(rawChunks[j].content,
                                rawChunks[j].metadata.(sectionNumber := Some(j + 1), totalChunks := Some(|rawChunks|)))
      {
        var metadata := rawChunks[i].metadata.(sectionNumber := Some(i + 1), totalChunks := Some(|rawChunks|));
        processed := processed + [Chunk(rawChunks[i].content, metadata)];
      }
    }
  }
}
