/** Splitting a parsed document into overlapping, page-tagged chunks. */
module Chunking {
  import opened Sequences
  import opened Text

  datatype Page = Page(number: int, text: string)

  /** One word of the document and the page it came from. */
  datatype Word = Word(text: string, page: int)

  datatype ChunkData = ChunkData(
    ordinal: nat,
    text: string,
    pageStart: int,
    pageEnd: int,
    tokenCount: nat,
    contentHash: string)

  datatype SizeError = WindowNotPositive | OverlapOutOfRange

  datatype ChunkResult = Chunked(chunks: seq<ChunkData>) | Rejected(error: SizeError)

  function Min(a: int, b: int): int {
    if a <= b then a else b
  }

  /** About four characters a token; blank text costs nothing. */
  function EstimateTokens(text: string): nat {
    (|Trim(text)| + 3) / 4
  }

  /** The digest of the whitespace-normalised text; SHA-256 is taken to be injective, so the digest is the text. */
  function ContentHash(text: string): string {
    Join(Split(text))
  }

  /** The words `tokens`, all on page `page`. */
  function Tagged(tokens: seq<string>, page: int): (words: seq<Word>)
    ensures |words| == |tokens|
    ensures forall i :: 0 <= i < |words| ==> words[i] == Word(tokens[i], page)
  {
    if tokens == [] then [] else Tagged(tokens[..|tokens| - 1], page) + [Word(tokens[|tokens| - 1], page)]
  }

  /** The page-attributed words of a document in reading order. */
  function WordStream(pages: seq<Page>): seq<Word> {
    if pages == [] then [] else
      var last := pages[|pages| - 1];
      WordStream(pages[..|pages| - 1]) + Tagged(Split(last.text), last.number)
  }

  function Texts(words: seq<Word>): (texts: seq<string>)
    ensures |texts| == |words|
    ensures forall i :: 0 <= i < |words| ==> texts[i] == words[i].text
  {
    seq(|words|, i requires 0 <= i < |words| => words[i].text)
  }

  predicate ValidSizes(size: int, overlap: int) {
    0 < size && 0 <= overlap < size
  }

  /** How many windows cover `n` words: none, one, or one and then one for each further step begun. */
  function ChunkCount(n: nat, size: int, overlap: int): nat
    requires ValidSizes(size, overlap)
  {
    var step := size - overlap;
    if n == 0 then 0
    else if n <= size then 1
    else 1 + (n - size + step - 1) / step
  }

  /** Where window `i` starts. */
  function StartOf(i: nat, step: nat): nat {
    if i == 0 then 0 else StartOf(i - 1, step) + step
  }

  /** Window `i` of the word stream; the last one may be short. */
  function Window(words: seq<Word>, size: int, overlap: int, i: nat): (window: seq<Word>)
    requires ValidSizes(size, overlap)
    requires i < ChunkCount(|words|, size, overlap)
    ensures window != []
  {
    WindowBounds(|words|, size, overlap, i);
    var start := StartOf(i, size - overlap);
    words[start..Min(start + size, |words|)]
  }

  function ChunkOf(window: seq<Word>, ordinal: nat): ChunkData
    requires window != []
  {
    var text := Join(Texts(window));
    ChunkData(ordinal, text, window[0].page, window[|window| - 1].page, EstimateTokens(text), ContentHash(text))
  }

  /** The first `count` chunks of a word stream. */
  function ChunksUpTo(words: seq<Word>, size: int, overlap: int, count: nat): (chunks: seq<ChunkData>)
    requires ValidSizes(size, overlap)
    requires count <= ChunkCount(|words|, size, overlap)
    ensures |chunks| == count
  {
    if count == 0 then [] else
      ChunksUpTo(words, size, overlap, count - 1) +
      [ChunkOf(Window(words, size, overlap, count - 1), count - 1)]
  }

  /** All the chunks of a word stream: one for each window. */
  function Chunks(words: seq<Word>, size: int, overlap: int): (chunks: seq<ChunkData>)
    requires ValidSizes(size, overlap)
    ensures |chunks| == ChunkCount(|words|, size, overlap)
  {
    ChunksUpTo(words, size, overlap, ChunkCount(|words|, size, overlap))
  }

  // ----------------------------------------------------- what the stream is

  /**
   The words are those of the pages, page by page: from `at[p]` to `at[p + 1]` come page `p`'s, under its number, and
   in its text they stand at `starts[p]`, each a maximal stretch, with nothing but whitespace left out.
   */
  ghost predicate FromPages(pages: seq<Page>, words: seq<Word>, at: seq<nat>, starts: seq<seq<nat>>) {
    |at| == |pages| + 1 && |starts| == |pages| && at[0] == 0 && at[|pages|] == |words| &&
    forall p :: 0 <= p < |pages| ==> OnPage(pages[p], words, at[p], at[p + 1], starts[p])
  }

  ghost predicate OnPage(page: Page, words: seq<Word>, a: nat, b: nat, starts: seq<nat>) {
    a <= b <= |words| && (forall k :: a <= k < b ==> words[k].page == page.number) &&
    StandAt(page.text, Texts(words[a..b]), starts)
  }

  /** The stream is every page's maximal stretches, in order, under the page's number. */
  lemma {:induction false} StreamStands(pages: seq<Page>) returns (at: seq<nat>, starts: seq<seq<nat>>)
    ensures FromPages(pages, WordStream(pages), at, starts)
  {
    hide Split, StandAt;
    if pages == [] {
      at, starts := [0], [];
    } else {
      var front, last := pages[..|pages| - 1], pages[|pages| - 1];
      var words, tokens := WordStream(front), Split(last.text);
      var tail, all := Tagged(tokens, last.number), WordStream(pages);
      var at', starts' := StreamStands(front);
      var places := SplitStands(last.text);
      at, starts := at' + [|all|], starts' + [places];
      assert all == words + tail;
      forall p | 0 <= p < |pages|
        ensures OnPage(pages[p], all, at[p], at[p + 1], starts[p])
      {
        if p < |front| {
          assert OnPage(front[p], words, at'[p], at'[p + 1], starts'[p]);
          assert all[at'[p]..at'[p + 1]] == words[at'[p]..at'[p + 1]];
        } else {
          assert Texts(all[|words|..|all|]) == tokens;
        }
      }
    }
  }

  // ---------------------------------------------------------------- the code

  /** Nested loops that append every token of every page. */
  method FlattenWords(pages: seq<Page>) returns (words: seq<Word>)
    ensures words == WordStream(pages)
    ensures exists at, starts :: FromPages(pages, words, at, starts)
  {
    ghost var at, starts := StreamStands(pages);
    hide Split, FromPages;
    words := [];
    for p := 0 to |pages|
      invariant words == WordStream(pages[..p])
    {
      ghost var before := words;
      var tokens := Split(pages[p].text);
      for t := 0 to |tokens|
        invariant words == before + Tagged(tokens[..t], pages[p].number)
      {
        words := words + [Word(tokens[t], pages[p].number)];
        assert tokens[..t + 1][..t] == tokens[..t];
      }
      TakeAll(tokens);
      assert pages[..p + 1][..p] == pages[..p];
    }
    assert pages[..|pages|] == pages;
  }

  /** The windowed loop with its early exit. */
  method ChunkDocument(pages: seq<Page>, size: int, overlap: int) returns (result: ChunkResult)
    ensures size <= 0 ==> result == Rejected(WindowNotPositive)
    ensures 0 < size && !(0 <= overlap < size) ==> result == Rejected(OverlapOutOfRange)
    ensures ValidSizes(size, overlap) ==> result == Chunked(Chunks(WordStream(pages), size, overlap))
  {
    hide ChunkOf, Window, ChunkCount, WordStream;
    if size <= 0 {
      return Rejected(WindowNotPositive);
    }
    if !(0 <= overlap < size) {
      return Rejected(OverlapOutOfRange);
    }
    var words := FlattenWords(pages);
    if words == [] {
      NoWordsNoChunks(size, overlap);
      return Chunked([]);
    }
    CountBounds(|words|, size, overlap);
    var step := size - overlap;
    var chunks: seq<ChunkData> := [];
    var start, ordinal := 0, 0;
    while start < |words|
      invariant start == StartOf(ordinal, step)
      invariant 0 <= ordinal < ChunkCount(|words|, size, overlap)
      invariant chunks == ChunksUpTo(words, size, overlap, ordinal)
      decreases |words| - start
    {
      WindowBounds(|words|, size, overlap, ordinal);
      var window := words[start..Min(start + size, |words|)];
      WindowIsSlice(words, size, overlap, ordinal);
      chunks := chunks + [ChunkOf(window, ordinal)];
      // The final window reached the end; a further one would lie inside it.
      if start + size >= |words| {
        return Chunked(chunks);
      }
      start, ordinal := start + step, ordinal + 1;
    }
    WindowBounds(|words|, size, overlap, ordinal);
    return Chunked(chunks);
  }

  // ------------------------------------------------------------- arithmetic

  lemma StartIsProduct(i: nat, step: nat)
    ensures StartOf(i, step) == i * step
  {
  }

  lemma StartMonotone(i: nat, j: nat, step: nat)
    requires i <= j
    ensures StartOf(i, step) <= StartOf(j, step)
  {
    if i < j {
      StartMonotone(i, j - 1, step);
    }
  }

  lemma QuotientPositive(m: int, step: int)
    requires 0 < step <= m
    ensures 0 < m / step
  {
  }

  lemma CountBounds(n: nat, size: int, overlap: int)
    requires ValidSizes(size, overlap) && 0 < n
    ensures ChunkCount(n, size, overlap) >= 1
    ensures var last := ChunkCount(n, size, overlap) - 1;
            n <= StartOf(last, size - overlap) + size &&
            (0 < last ==> StartOf(last - 1, size - overlap) + size < n)
  {
    var step := size - overlap;
    if size < n {
      var m := n - size + step - 1;
      var q := m / step;
      assert m == q * step + m % step && 0 <= m % step < step;
      StartIsProduct(q, step);
      QuotientPositive(m, step);
      assert StartOf(q, step) == StartOf(q - 1, step) + step;
    }
  }

  /** Every window starts inside the stream, and exactly the last one reaches its end. */
  lemma WindowBounds(n: nat, size: int, overlap: int, i: nat)
    requires ValidSizes(size, overlap)
    requires i < ChunkCount(n, size, overlap)
    ensures StartOf(i, size - overlap) < n
    ensures StartOf(i, size - overlap) + size < n <==> i + 1 < ChunkCount(n, size, overlap)
    ensures 0 < i ==> StartOf(i, size - overlap) + overlap < n
  {
    var step, last := size - overlap, ChunkCount(n, size, overlap) - 1;
    CountBounds(n, size, overlap);
    if i < last {
      StartMonotone(i, last - 1, step);
    }
    if 0 < i {
      StartMonotone(i - 1, last - 1, step);
    }
  }

  lemma NoWordsNoChunks(size: int, overlap: int)
    requires ValidSizes(size, overlap)
    ensures Chunks([], size, overlap) == []
  {
  }

  lemma WindowIsSlice(words: seq<Word>, size: int, overlap: int, i: nat)
    requires ValidSizes(size, overlap)
    requires i < ChunkCount(|words|, size, overlap)
    ensures StartOf(i, size - overlap) < |words|
    ensures var start := StartOf(i, size - overlap);
            Window(words, size, overlap, i) == words[start..Min(start + size, |words|)]
  {
    WindowBounds(|words|, size, overlap, i);
  }

  lemma {:induction false} ChunkAt(words: seq<Word>, size: int, overlap: int, count: nat, i: nat)
    requires ValidSizes(size, overlap)
    requires i < count <= ChunkCount(|words|, size, overlap)
    ensures ChunksUpTo(words, size, overlap, count)[i] == ChunkOf(Window(words, size, overlap, i), i)
  {
    hide ChunkOf;
    if i < count - 1 {
      ChunkAt(words, size, overlap, count - 1, i);
    }
  }
}
