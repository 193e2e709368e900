/** What the chunks of a document promise: nothing is lost, overlaps are exact, page tags are true. */
module ChunkLaws {
  import opened Chunking
  import opened Sequences
  import opened Text

  // ------------------------------------------------------------- the words

  /** The pages the PDF parser returns: numbered from one in reading order. */
  function ParsedPages(texts: seq<string>): (pages: seq<Page>)
    ensures |pages| == |texts|
    ensures forall i :: 0 <= i < |pages| ==> pages[i] == Page(i + 1, texts[i])
  {
    seq(|texts|, i requires 0 <= i < |texts| => Page(i + 1, texts[i]))
  }

  predicate Ascending(pages: seq<Page>) {
    forall i, j :: 0 <= i <= j < |pages| ==> pages[i].number <= pages[j].number
  }

  predicate PagesAscend(words: seq<Word>) {
    forall i, j :: 0 <= i <= j < |words| ==> words[i].page <= words[j].page
  }

  /** Every word of the stream is a token on one of the pages. */
  lemma {:induction false} StreamWords(pages: seq<Page>)
    ensures AllTokens(Texts(WordStream(pages)))
    ensures forall k :: 0 <= k < |WordStream(pages)| ==>
              exists p :: 0 <= p < |pages| && pages[p].number == WordStream(pages)[k].page
  {
    hide Split, Trim;
    if pages != [] {
      var front, last := pages[..|pages| - 1], pages[|pages| - 1];
      StreamWords(front);
      var words, tail := WordStream(front), Tagged(Split(last.text), last.number);
      var all := WordStream(pages);
      assert all == words + tail;
      forall k | 0 <= k < |all|
        ensures exists p :: 0 <= p < |pages| && pages[p].number == all[k].page
      {
        if k < |words| {
          var p :| 0 <= p < |front| && front[p].number == words[k].page;
          assert pages[p].number == words[k].page;
        } else {
          assert pages[|pages| - 1].number == tail[k - |words|].page;
        }
      }
    }
  }

  lemma {:induction false} StreamAscends(pages: seq<Page>)
    requires Ascending(pages)
    ensures PagesAscend(WordStream(pages))
  {
    hide Split, Trim;
    if pages != [] {
      var front, last := pages[..|pages| - 1], pages[|pages| - 1];
      StreamAscends(front);
      StreamWords(front);
      var words, tail := WordStream(front), Tagged(Split(last.text), last.number);
      var all := WordStream(pages);
      assert all == words + tail;
      forall i, j | 0 <= i <= j < |all|
        ensures all[i].page <= all[j].page
      {
        if i < |words| <= j {
          var p :| 0 <= p < |front| && front[p].number == words[i].page;
          assert pages[p].number <= pages[|pages| - 1].number;
        }
      }
    }
  }

  // ------------------------------------------------------- reconstruction

  /** The words of a chunk, read back from its text. */
  function WordsOf(chunk: ChunkData): seq<string> {
    Split(chunk.text)
  }

  /** The first chunk's words, then every later chunk's words past its overlap. */
  function Rebuild(chunks: seq<ChunkData>, overlap: nat): seq<string> {
    if chunks == [] then []
    else
      var last := WordsOf(chunks[|chunks| - 1]);
      if |chunks| == 1 then last
      else Rebuild(chunks[..|chunks| - 1], overlap) + last[Min(overlap, |last|)..]
  }

  /** Reading a chunk back gives exactly the words of its window. */
  lemma ChunkHoldsWindow(words: seq<Word>, size: int, overlap: int, i: nat)
    requires ValidSizes(size, overlap)
    requires i < ChunkCount(|words|, size, overlap)
    requires AllTokens(Texts(words))
    ensures Window(words, size, overlap, i) != []
    ensures WordsOf(ChunkOf(Window(words, size, overlap, i), i)) == Texts(Window(words, size, overlap, i))
  {
    hide Split, Trim, Join;
    var window := Window(words, size, overlap, i);
    WindowIsSlice(words, size, overlap, i);
    var start := StartOf(i, size - overlap);
    forall k | 0 <= k < |window|
      ensures IsToken(Texts(window)[k])
    {
      assert Texts(window)[k] == Texts(words)[start + k];
    }
    SplitJoin(Texts(window));
  }

  /** Chunk `i` holds the words from its start up to the window size. */
  lemma ChunkWords(words: seq<Word>, size: int, overlap: int, i: nat)
    requires ValidSizes(size, overlap)
    requires i < |Chunks(words, size, overlap)|
    requires AllTokens(Texts(words))
    ensures var start := StartOf(i, size - overlap);
            start < |words| &&
            WordsOf(Chunks(words, size, overlap)[i]) == Texts(words)[start..Min(start + size, |words|)]
  {
    hide ChunkOf, Window, WordsOf, ChunkCount;
    var start := StartOf(i, size - overlap);
    ChunkAt(words, size, overlap, ChunkCount(|words|, size, overlap), i);
    ChunkHoldsWindow(words, size, overlap, i);
    WindowIsSlice(words, size, overlap, i);
    SliceTexts(words, start, Min(start + size, |words|));
  }

  lemma SliceTexts(words: seq<Word>, a: nat, b: nat)
    requires a <= b <= |words|
    ensures Texts(words[a..b]) == Texts(words)[a..b]
  {
  }

  lemma {:induction false} RebuildPrefix(words: seq<Word>, size: int, overlap: int, count: nat)
    requires ValidSizes(size, overlap)
    requires 0 < count <= ChunkCount(|words|, size, overlap)
    requires AllTokens(Texts(words))
    ensures Rebuild(ChunksUpTo(words, size, overlap, count), overlap) ==
            Texts(words)[..Min(StartOf(count - 1, size - overlap) + size, |words|)]
  {
    hide ChunkOf, Window, WordsOf, ChunkCount, Texts, ChunksUpTo, AllTokens, Rebuild;
    var n, step, texts, i := |words|, size - overlap, Texts(words), count - 1;
    var chunks, start := ChunksUpTo(words, size, overlap, count), StartOf(i, step);
    LastChunkWords(words, size, overlap, count);
    RebuildStep(chunks, overlap);
    if i > 0 {
      RebuildPrefix(words, size, overlap, i);
      WindowBounds(n, size, overlap, i - 1);
      PasteWindow(texts, start, StartOf(i - 1, step) + size, Min(start + size, n), WordsOf(chunks[i]), overlap);
    }
  }

  /** Appending a window without its overlap continues the words where the previous window ended. */
  lemma PasteWindow(texts: seq<string>, start: nat, reached: nat, end: nat, window: seq<string>, overlap: nat)
    requires reached == start + overlap && reached < |texts| && reached <= end <= |texts|
    requires window == texts[start..end]
    ensures texts[..Min(reached, |texts|)] + window[Min(overlap, |window|)..] == texts[..end]
  {
    assert window[overlap..] == texts[reached..end];
  }

  /** The chunks up to `count` are those before, and then one holding its window's words. */
  lemma LastChunkWords(words: seq<Word>, size: int, overlap: int, count: nat)
    requires ValidSizes(size, overlap)
    requires 0 < count <= ChunkCount(|words|, size, overlap)
    requires AllTokens(Texts(words))
    ensures var start := StartOf(count - 1, size - overlap);
            var chunks := ChunksUpTo(words, size, overlap, count);
            start < |words| &&
            chunks[..count - 1] == ChunksUpTo(words, size, overlap, count - 1) &&
            WordsOf(chunks[count - 1]) == Texts(words)[start..Min(start + size, |words|)]
  {
    hide ChunkOf, Window, WordsOf, ChunkCount, Texts;
    var i, start := count - 1, StartOf(count - 1, size - overlap);
    ChunkHoldsWindow(words, size, overlap, i);
    WindowIsSlice(words, size, overlap, i);
    SliceTexts(words, start, Min(start + size, |words|));
  }

  /** The chunk texts alone give back the document's words in order. */
  lemma ChunksReconstruct(pages: seq<Page>, size: int, overlap: int)
    requires ValidSizes(size, overlap)
    ensures Rebuild(Chunks(WordStream(pages), size, overlap), overlap) == Texts(WordStream(pages))
  {
    hide ChunkCount, WordStream, WordsOf, Rebuild, ChunksUpTo;
    var words := WordStream(pages);
    if words == [] {
      NoWordsNoChunks(size, overlap);
      RebuildNothing(overlap);
    } else {
      StreamWords(pages);
      var count := ChunkCount(|words|, size, overlap);
      CountBounds(|words|, size, overlap);
      RebuildPrefix(words, size, overlap, count);
      TakeAll(Texts(words));
    }
  }

  lemma RebuildStep(chunks: seq<ChunkData>, overlap: nat)
    requires chunks != []
    ensures var last := WordsOf(chunks[|chunks| - 1]);
            Rebuild(chunks, overlap) ==
            if |chunks| == 1 then last else Rebuild(chunks[..|chunks| - 1], overlap) + last[Min(overlap, |last|)..]
  {
  }

  lemma RebuildNothing(overlap: nat)
    ensures Rebuild([], overlap) == []
  {
  }

  /** Consecutive chunks share exactly `overlap` words, and the later one always brings a new word. */
  lemma ChunksOverlap(pages: seq<Page>, size: int, overlap: int, i: nat)
    requires ValidSizes(size, overlap)
    requires 0 < i < |Chunks(WordStream(pages), size, overlap)|
    ensures var chunks := Chunks(WordStream(pages), size, overlap);
            var before, after := WordsOf(chunks[i - 1]), WordsOf(chunks[i]);
            |before| == size && overlap < |after| <= size &&
            before[size - overlap..] == after[..overlap]
  {
    hide ChunkOf, Window, WordsOf, ChunkCount, WordStream, ChunksUpTo, Chunks, Texts, AllTokens;
    CountOf(WordStream(pages), size, overlap);
    var words := WordStream(pages);
    var texts, step, n := Texts(words), size - overlap, |words|;
    var a, b := StartOf(i - 1, step), StartOf(i, step);
    StreamWords(pages);
    ChunkWords(words, size, overlap, i - 1);
    ChunkWords(words, size, overlap, i);
    WindowBounds(n, size, overlap, i - 1);
    WindowBounds(n, size, overlap, i);
    assert b == a + step;
    SlicesMeet(texts, a, b, a + size, Min(b + size, n));
  }

  lemma SlicesMeet<T>(s: seq<T>, a: nat, b: nat, c: nat, d: nat)
    requires a <= b <= c <= d <= |s|
    ensures s[a..c][b - a..] == s[b..d][..c - b]
  {
  }

  /** Ordinals number the chunks from zero without a gap. */
  lemma OrdinalsContiguous(words: seq<Word>, size: int, overlap: int, i: nat)
    requires ValidSizes(size, overlap)
    requires i < |Chunks(words, size, overlap)|
    ensures Chunks(words, size, overlap)[i].ordinal == i
  {
    ChunkAt(words, size, overlap, ChunkCount(|words|, size, overlap), i);
  }

  /** The digest de-duplication compares is the text itself: equal digests mean equal passages. */
  lemma DigestIdentifiesText(pages: seq<Page>, size: int, overlap: int, i: nat)
    requires ValidSizes(size, overlap)
    requires i < |Chunks(WordStream(pages), size, overlap)|
    ensures var chunk := Chunks(WordStream(pages), size, overlap)[i]; chunk.contentHash == chunk.text
  {
    hide Window, ChunkCount, Split, Trim;
    var words := WordStream(pages);
    StreamWords(pages);
    ChunkAt(words, size, overlap, ChunkCount(|words|, size, overlap), i);
    ChunkHoldsWindow(words, size, overlap, i);
  }

  // --------------------------------------------------------- from the pages

  /** Window `i` exists exactly when there are words, and some lie past the window before it. */
  lemma WindowExistsIff(words: seq<Word>, size: int, overlap: int, i: nat)
    requires ValidSizes(size, overlap)
    ensures i < |Chunks(words, size, overlap)| <==>
            words != [] && (i == 0 || (i - 1) * (size - overlap) + size < |words|)
  {
    hide Chunks, ChunkCount;
    var n, step := |words|, size - overlap;
    CountOf(words, size, overlap);
    var count := ChunkCount(n, size, overlap);
    if words != [] {
      CountBounds(n, size, overlap);
      if 0 < i {
        StartIsProduct(i - 1, step);
        if i < count {
          WindowBounds(n, size, overlap, i - 1);
        } else {
          StartMonotone(count - 1, i - 1, step);
        }
      }
    }
  }

  lemma CountOf(words: seq<Word>, size: int, overlap: int)
    requires ValidSizes(size, overlap)
    ensures |Chunks(words, size, overlap)| == ChunkCount(|words|, size, overlap)
    ensures words == [] ==> ChunkCount(|words|, size, overlap) == 0
  {
  }

  /** The chunk is made of the words from `start` to `end`, joined by single blanks, and tagged with their pages. */
  predicate MadeOf(chunk: ChunkData, words: seq<Word>, start: int, end: int) {
    0 <= start < end <= |words| && chunk.text == Join(Texts(words)[start..end]) &&
    chunk.pageStart == words[start].page && chunk.pageEnd == words[end - 1].page &&
    chunk.contentHash == chunk.text && 4 * (chunk.tokenCount - 1) < |chunk.text| <= 4 * chunk.tokenCount
  }

  /** What chunk `i` is, from the words alone. */
  lemma ChunkIs(words: seq<Word>, size: int, overlap: int, i: nat)
    requires ValidSizes(size, overlap) && AllTokens(Texts(words))
    requires i < |Chunks(words, size, overlap)|
    ensures var chunk, start := Chunks(words, size, overlap)[i], i * (size - overlap);
            var end := if start + size <= |words| then start + size else |words|;
            chunk.ordinal == i && MadeOf(chunk, words, start, end)
  {
    hide Split, Trim, Join, ChunkCount, Window;
    var start := StartOf(i, size - overlap);
    var end := Min(start + size, |words|);
    var window := Window(words, size, overlap, i);
    StartIsProduct(i, size - overlap);
    ChunkAt(words, size, overlap, ChunkCount(|words|, size, overlap), i);
    ChunkHoldsWindow(words, size, overlap, i);
    WindowIsSlice(words, size, overlap, i);
    SliceTexts(words, start, end);
    JoinIsTrimmed(Texts(window));
  }

  ghost predicate HoldsPage(page: Page, texts: seq<string>, a: nat, b: nat, starts: seq<nat>) {
    a <= b <= |texts| && StandAt(page.text, texts[a..b], starts)
  }

  /**
   The chunks alone give back what the pages hold: rebuilt from the chunk texts, the words from `at[p]` to `at[p + 1]`
   are the maximal stretches of page `p`'s text.
   */
  lemma ChunksHoldPages(pages: seq<Page>, size: int, overlap: int) returns (at: seq<nat>, starts: seq<seq<nat>>)
    requires ValidSizes(size, overlap)
    ensures var rebuilt := Rebuild(Chunks(WordStream(pages), size, overlap), overlap);
            |at| == |pages| + 1 && |starts| == |pages| && at[0] == 0 && at[|pages|] == |rebuilt| &&
            forall p :: 0 <= p < |pages| ==> HoldsPage(pages[p], rebuilt, at[p], at[p + 1], starts[p])
  {
    hide Split, StandAt, Rebuild, Chunks, WordStream;
    ChunksReconstruct(pages, size, overlap);
    at, starts := StreamStands(pages);
    var words := WordStream(pages);
    forall p | 0 <= p < |pages|
      ensures HoldsPage(pages[p], Texts(words), at[p], at[p + 1], starts[p])
    {
      assert OnPage(pages[p], words, at[p], at[p + 1], starts[p]);
      SliceTexts(words, at[p], at[p + 1]);
    }
  }
}
