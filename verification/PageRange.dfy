/** Page tags of chunks, and the page-range query that feeds summaries. */
module PageRange {
  import opened Chunking
  import opened ChunkLaws
  import opened Text

  /** Word `k` of the stream is one of the words of chunk `i`, at its own place. */
  ghost predicate HoldsWord(words: seq<Word>, size: int, overlap: int, i: nat, k: nat)
    requires ValidSizes(size, overlap)
  {
    i < |Chunks(words, size, overlap)| && k < |words| &&
    var held := WordsOf(Chunks(words, size, overlap)[i]);
    var start := StartOf(i, size - overlap);
    start <= k < start + |held| && held[k - start] == words[k].text
  }

  /** A chunk's tags are the pages of its first and last word, and with ascending pages bound all the others. */
  lemma TagsBoundWords(words: seq<Word>, size: int, overlap: int, i: nat)
    requires ValidSizes(size, overlap) && PagesAscend(words)
    requires i < |Chunks(words, size, overlap)|
    ensures var chunk, start := Chunks(words, size, overlap)[i], StartOf(i, size - overlap);
            var end := Min(start + size, |words|);
            start < end && chunk.pageStart == words[start].page && chunk.pageEnd == words[end - 1].page &&
            forall k :: start <= k < end ==> chunk.pageStart <= words[k].page <= chunk.pageEnd
  {
    hide ChunkCount, Join, Split, Trim;
    var start := StartOf(i, size - overlap);
    ChunkAt(words, size, overlap, ChunkCount(|words|, size, overlap), i);
    WindowIsSlice(words, size, overlap, i);
  }

  /** Both tags grow along the document. */
  lemma TagsAscend(words: seq<Word>, size: int, overlap: int, i: nat, j: nat)
    requires ValidSizes(size, overlap) && PagesAscend(words)
    requires i <= j < |Chunks(words, size, overlap)|
    ensures var chunks := Chunks(words, size, overlap);
            chunks[i].pageStart <= chunks[j].pageStart && chunks[i].pageEnd <= chunks[j].pageEnd
  {
    hide ChunkCount, Chunks;
    TagsBoundWords(words, size, overlap, i);
    TagsBoundWords(words, size, overlap, j);
    StartMonotone(i, j, size - overlap);
  }

  predicate Overlaps(chunk: ChunkData, first: int, last: int) {
    chunk.pageStart <= last && chunk.pageEnd >= first
  }

  /** The rows overlapping pages `first` to `last`, in ordinal order. */
  function FetchRange(chunks: seq<ChunkData>, first: int, last: int): seq<ChunkData> {
    if chunks == [] then []
    else
      var front := FetchRange(chunks[..|chunks| - 1], first, last);
      if Overlaps(chunks[|chunks| - 1], first, last) then front + [chunks[|chunks| - 1]] else front
  }

  /** A query that selects the indices `lo` to `hi` returns that slice. */
  lemma {:induction false} FetchIsSlice(chunks: seq<ChunkData>, first: int, last: int, lo: nat, hi: nat)
    requires lo <= hi <= |chunks|
    requires forall i :: 0 <= i < |chunks| ==> (Overlaps(chunks[i], first, last) <==> lo <= i < hi)
    ensures FetchRange(chunks, first, last) == chunks[lo..hi]
  {
    hide Overlaps;
    if chunks != [] {
      var front := chunks[..|chunks| - 1];
      assert forall i :: 0 <= i < |front| ==> front[i] == chunks[i];
      if hi == |chunks| && lo < hi {
        FetchIsSlice(front, first, last, lo, hi - 1);
        assert front[lo..hi - 1] + [chunks[hi - 1]] == chunks[lo..hi];
      } else if lo == |chunks| {
        FetchIsSlice(front, first, last, lo - 1, lo - 1);
      } else {
        FetchIsSlice(front, first, last, lo, hi);
        assert front[lo..hi] == chunks[lo..hi];
      }
    }
  }

  /** Where the chunks reaching page `first` begin. */
  lemma {:induction false} FirstReaching(chunks: seq<ChunkData>, first: int) returns (lo: nat)
    requires forall i, j :: 0 <= i <= j < |chunks| ==> chunks[i].pageEnd <= chunks[j].pageEnd
    ensures lo <= |chunks|
    ensures forall i :: 0 <= i < |chunks| ==> (first <= chunks[i].pageEnd <==> lo <= i)
  {
    lo := 0;
    while lo < |chunks| && chunks[lo].pageEnd < first
      invariant lo <= |chunks|
      invariant forall i :: 0 <= i < lo ==> chunks[i].pageEnd < first
    {
      lo := lo + 1;
    }
  }

  /** Where the chunks starting after page `last` begin. */
  lemma {:induction false} FirstPast(chunks: seq<ChunkData>, last: int) returns (hi: nat)
    requires forall i, j :: 0 <= i <= j < |chunks| ==> chunks[i].pageStart <= chunks[j].pageStart
    ensures hi <= |chunks|
    ensures forall i :: 0 <= i < |chunks| ==> (chunks[i].pageStart <= last <==> i < hi)
  {
    hi := 0;
    while hi < |chunks| && chunks[hi].pageStart <= last
      invariant hi <= |chunks|
      invariant forall i :: 0 <= i < hi ==> chunks[i].pageStart <= last
    {
      hi := hi + 1;
    }
  }

  /** Every word lies in some window. */
  lemma {:induction false} WindowFor(n: nat, size: int, overlap: int, k: nat, count: nat) returns (i: nat)
    requires ValidSizes(size, overlap)
    requires 0 < count <= ChunkCount(n, size, overlap)
    requires k < Min(StartOf(count - 1, size - overlap) + size, n)
    ensures i < count
    ensures StartOf(i, size - overlap) <= k < Min(StartOf(i, size - overlap) + size, n)
    decreases count
  {
    hide ChunkCount;
    i := count - 1;
    if k < StartOf(i, size - overlap) {
      i := WindowFor(n, size, overlap, k, count - 1);
    }
  }

  lemma WordHasChunk(pages: seq<Page>, size: int, overlap: int, k: nat) returns (i: nat)
    requires ValidSizes(size, overlap)
    requires k < |WordStream(pages)|
    ensures HoldsWord(WordStream(pages), size, overlap, i, k)
  {
    hide ChunkCount, WordStream, WordsOf, Chunks, Texts;
    var words := WordStream(pages);
    StreamWords(pages);
    CountBounds(|words|, size, overlap);
    i := WindowFor(|words|, size, overlap, k, ChunkCount(|words|, size, overlap));
    ChunkWords(words, size, overlap, i);
  }

  /**
   The chunks fetched for pages `first` to `last` are exactly those whose tags meet the range; they are one run of
   ordinals and hold every word on those pages.
   */
  lemma PageRangeComplete(pages: seq<Page>, size: int, overlap: int, first: int, last: int) returns (lo: nat, hi: nat)
    requires ValidSizes(size, overlap) && Ascending(pages)
    ensures var words := WordStream(pages);
            var chunks := Chunks(words, size, overlap);
            lo <= hi <= |chunks| &&
            FetchRange(chunks, first, last) == chunks[lo..hi] &&
            (forall i :: 0 <= i < |chunks| ==>
              (lo <= i < hi <==> chunks[i].pageStart <= last && first <= chunks[i].pageEnd)) &&
            forall k :: 0 <= k < |words| && first <= words[k].page <= last ==>
              exists i :: lo <= i < hi && HoldsWord(words, size, overlap, i, k)
  {
    hide ChunkCount, WordStream, WordsOf, Chunks;
    var words := WordStream(pages);
    var chunks := Chunks(words, size, overlap);
    StreamAscends(pages);
    forall i, j | 0 <= i <= j < |chunks|
      ensures chunks[i].pageStart <= chunks[j].pageStart && chunks[i].pageEnd <= chunks[j].pageEnd
    {
      TagsAscend(words, size, overlap, i, j);
    }
    lo := FirstReaching(chunks, first);
    hi := FirstPast(chunks, last);
    forall k | 0 <= k < |words| && first <= words[k].page <= last
      ensures exists i :: lo <= i < hi && HoldsWord(words, size, overlap, i, k)
    {
      var i := WordHasChunk(pages, size, overlap, k);
      StreamWords(pages);
      ChunkWords(words, size, overlap, i);
      TagsBoundWords(words, size, overlap, i);
      assert lo <= i < hi;
    }
    if hi < lo {
      hi := lo;
    }
    FetchIsSlice(chunks, first, last, lo, hi);
  }
}
