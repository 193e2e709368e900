/** The read range: whatever ingestion and retrieval went through, no returned word lies past the reader's page. */
module ReadRange {
  import opened ChunkLaws
  import opened Chunking
  import opened Ingestion
  import IngestionSafety
  import opened PageRange
  import opened Retrieval
  import opened Shared
  import opened Text

  /** Who claimed what in an attempt. */
  datatype Work = Work(document: DocumentId, owner: UserId, original: Original)

  ghost predicate RowTraced(cfg: Config, work: map<nat, Work>, id: ChunkId, row: ChunkRow) {
    id.attempt in work &&
    var w := work[id.attempt];
    var built := RowsBy(cfg, id.attempt, w.owner, w.document, w.original);
    id in built && built[id] == row
  }

  ghost predicate PointTraced(cfg: Config, work: map<nat, Work>, id: ChunkId, point: Point) {
    id.attempt in work &&
    var w := work[id.attempt];
    var built := PointsBy(cfg, id.attempt, w.owner, w.document, w.original);
    id in built && built[id] == point
  }

  /** Every row and every point is what the attempt that minted its id built from its document's bytes. */
  ghost predicate Traced(cfg: Config, s: State, work: map<nat, Work>) {
    (forall a :: a in work ==>
      a < s.nextAttempt && work[a].document < s.nextDocument &&
      (work[a].document in s.documents ==> s.documents[work[a].document].original == work[a].original)) &&
    (forall a :: a in s.attempts ==>
      a in work && var Attempt(m, original, _) := s.attempts[a]; work[a] == Work(m.document, m.owner, original)) &&
    (forall id :: id in s.rows ==> RowTraced(cfg, work, id, s.rows[id])) &&
    (forall id :: id in s.points ==> PointTraced(cfg, work, id, s.points[id])) &&
    (forall d :: d in s.documents ==> d < s.nextDocument)
  }

  /** Later claims leave what earlier attempts worked on. */
  ghost predicate Extends(work: map<nat, Work>, work': map<nat, Work>) {
    forall a :: a in work ==> a in work' && work'[a] == work[a]
  }

  lemma TraceGrows(cfg: Config, work: map<nat, Work>, a: nat, w: Work)
    requires a !in work
    ensures forall id, row :: RowTraced(cfg, work, id, row) ==> RowTraced(cfg, work[a := w], id, row)
    ensures forall id, point :: PointTraced(cfg, work, id, point) ==> PointTraced(cfg, work[a := w], id, point)
  {
    hide RowsBy, PointsBy;
  }

  /** A step that writes no new row or point and claims nothing. */
  lemma ShrinkTraced(cfg: Config, s: State, s': State, work: map<nat, Work>)
    requires Traced(cfg, s, work)
    requires s.nextAttempt <= s'.nextAttempt && s.nextDocument <= s'.nextDocument
    requires forall id :: id in s'.rows ==> id in s.rows && s'.rows[id] == s.rows[id]
    requires forall id :: id in s'.points ==> id in s.points && s'.points[id] == s.points[id]
    requires forall a :: a in s'.attempts ==>
               a in s.attempts && s'.attempts[a].message == s.attempts[a].message &&
               s'.attempts[a].original == s.attempts[a].original
    requires forall d :: d in s'.documents ==>
               (d in s.documents && s'.documents[d].original == s.documents[d].original) ||
               s.nextDocument <= d < s'.nextDocument
    ensures Traced(cfg, s', work)
  {
    hide RowTraced, PointTraced;
  }

  /** Every step keeps the trace, whether or not attempts overlap. */
  lemma StepTraced(cfg: Config, s: State, step: Step, work: map<nat, Work>) returns (work': map<nat, Work>)
    requires Traced(cfg, s, work) && Enabled(cfg, s, step)
    ensures Traced(cfg, Apply(cfg, s, step), work') && Extends(work, work')
  {
    hide RowsBy, PointsBy, PointsExcept, RowsExcept, ChunksFor, Traced, Raised, ApplyRelay, ApplyDeliver, ApplyCommit,
         WithStatus, Dispatched, MessagesFor;
    work' := work;
    match step {
      case Deliver(m) =>
        work' := ClaimTraced(cfg, s, m, work);
      case DeliverFailure(m) =>
        RaisedTraced(cfg, s, s.(queue := s.queue - multiset{m}), m, work);
      case TransientFailure(a) =>
        RaisedTraced(cfg, s, s.(attempts := s.attempts - {a}), s.attempts[a].message, work);
      case Relay =>
        RelayTraced(cfg, s, work);
      case UpsertVectors(a) =>
        PointsTraced(cfg, s, work, a);
      case Commit(a) =>
        CommitTraced(cfg, s, work, a);
      case _ =>
        OtherTraced(cfg, s, step, work);
    }
  }

  lemma OtherTraced(cfg: Config, s: State, step: Step, work: map<nat, Work>)
    requires Traced(cfg, s, work) && Enabled(cfg, s, step)
    requires !step.Deliver? && !step.DeliverFailure? && !step.TransientFailure? && !step.Relay? &&
             !step.UpsertVectors? && !step.Commit?
    ensures Traced(cfg, Apply(cfg, s, step), work)
  {
    hide Traced, Dispatched, MessagesFor;
    ShrinkTraced(cfg, s, Apply(cfg, s, step), work);
  }

  lemma RaisedTraced(cfg: Config, s: State, rest: State, m: Message, work: map<nat, Work>)
    requires Traced(cfg, s, work)
    requires rest == s.(queue := rest.queue, attempts := rest.attempts)
    requires forall a :: a in rest.attempts ==> a in s.attempts && rest.attempts[a] == s.attempts[a]
    ensures Traced(cfg, Raised(cfg, rest, m), work)
  {
    hide Traced;
    ShrinkTraced(cfg, s, Raised(cfg, rest, m), work);
  }

  lemma RelayTraced(cfg: Config, s: State, work: map<nat, Work>)
    requires Traced(cfg, s, work)
    ensures Traced(cfg, ApplyRelay(cfg, s), work)
  {
    hide Traced;
    ShrinkTraced(cfg, s, ApplyRelay(cfg, s), work);
  }

  lemma ClaimTraced(cfg: Config, s: State, m: Message, work: map<nat, Work>) returns (work': map<nat, Work>)
    requires Traced(cfg, s, work)
    ensures Traced(cfg, ApplyDeliver(s, m), work') && Extends(work, work')
  {
    hide RowTraced, PointTraced;
    work' := work;
    if ApplyDeliver(s, m).nextAttempt != s.nextAttempt {
      var w := Work(m.document, m.owner, s.documents[m.document].original);
      work' := work[s.nextAttempt := w];
      TraceGrows(cfg, work, s.nextAttempt, w);
    }
  }

  lemma PointsTraced(cfg: Config, s: State, work: map<nat, Work>, a: nat)
    requires Traced(cfg, s, work) && InPhase(s, a, Cleared)
    ensures Traced(cfg, Apply(cfg, s, UpsertVectors(a)), work)
  {
    hide RowsBy, PointsBy, RowTraced, PointTraced;
    var Attempt(m, original, _) := s.attempts[a];
    var added := PointsBy(cfg, a, m.owner, m.document, original);
    forall id | id in added
      ensures PointTraced(cfg, work, id, added[id])
    {
      AddedTraced(cfg, work, a, Work(m.document, m.owner, original), id);
    }
  }

  lemma AddedTraced(cfg: Config, work: map<nat, Work>, a: nat, w: Work, id: ChunkId)
    requires a in work && work[a] == w && id in PointsBy(cfg, a, w.owner, w.document, w.original)
    ensures PointTraced(cfg, work, id, PointsBy(cfg, a, w.owner, w.document, w.original)[id])
  {
    IngestionSafety.PointsByShape(cfg, a, w.owner, w.document, w.original);
    hide RowsBy, PointsBy;
  }

  /** The terminal transaction writes rows its attempt built, or undoes vectors. */
  lemma CommitTraced(cfg: Config, s: State, work: map<nat, Work>, a: nat)
    requires Traced(cfg, s, work) && InPhase(s, a, Upserted)
    ensures Traced(cfg, ApplyCommit(cfg, s, a), work)
  {
    var m := s.attempts[a].message;
    if Found(s.documents, m.owner, m.document) {
      RowsTraced(cfg, s, work, a);
    } else {
      hide Traced;
      ShrinkTraced(cfg, s, ApplyCommit(cfg, s, a), work);
    }
  }

  lemma RowsTraced(cfg: Config, s: State, work: map<nat, Work>, a: nat)
    requires Traced(cfg, s, work) && InPhase(s, a, Upserted)
    requires Found(s.documents, s.attempts[a].message.owner, s.attempts[a].message.document)
    ensures Traced(cfg, ApplyCommit(cfg, s, a), work)
  {
    var Attempt(m, original, _) := s.attempts[a];
    IngestionSafety.PointsByShape(cfg, a, m.owner, m.document, original);
    hide RowsBy, PointsBy, PointTraced;
    var s' := ApplyCommit(cfg, s, a);
    var added := RowsBy(cfg, a, m.owner, m.document, original);
    assert work[a] == Work(m.document, m.owner, original);
    forall id | id in s'.rows
      ensures RowTraced(cfg, work, id, s'.rows[id])
    {
      if id !in added {
        assert RowTraced(cfg, work, id, s.rows[id]);
      }
    }
  }

  lemma {:induction false} RunTraced(cfg: Config, s: State, steps: seq<Step>, work: map<nat, Work>)
    returns (work': map<nat, Work>)
    requires Traced(cfg, s, work) && Valid(cfg, s, steps)
    ensures Traced(cfg, Run(cfg, s, steps), work') && Extends(work, work')
    decreases |steps|
  {
    hide Traced, Apply, Enabled;
    if steps == [] {
      work' := work;
    } else {
      work' := StepTraced(cfg, s, steps[0], work);
      work' := RunTraced(cfg, Apply(cfg, s, steps[0]), steps[1..], work');
    }
  }

  /** `text` is a stretch of the document's words, none of them past page `bound`. */
  ghost predicate WithinPages(words: seq<Word>, text: string, bound: int) {
    exists a, b :: 0 <= a <= b <= |words| && Split(text) == Texts(words)[a..b] &&
                   forall k :: a <= k < b ==> words[k].page <= bound
  }

  /** A row whose point passes the page filter holds only words inside it. */
  lemma RowWithinBound(cfg: Config, work: map<nat, Work>, id: ChunkId, row: ChunkRow, point: Point,
                       texts: seq<string>, bound: int)
    requires RowTraced(cfg, work, id, row) && PointTraced(cfg, work, id, point)
    requires work[id.attempt].original.Readable? && work[id.attempt].original.pages == ParsedPages(texts)
    requires point.payload.pageEnd <= bound
    ensures WithinPages(WordStream(ParsedPages(texts)), row.chunk.text, bound)
  {
    hide RowsBy, PointsBy, Chunks, WordStream, Split;
    var words, i := WordStream(ParsedPages(texts)), id.index;
    TracedChunk(cfg, work, id, row, point);
    StreamWords(ParsedPages(texts));
    StreamAscends(ParsedPages(texts));
    ChunkWords(words, cfg.chunkSize, cfg.overlap, i);
    TagsBoundWords(words, cfg.chunkSize, cfg.overlap, i);
    var a := StartOf(i, cfg.chunkSize - cfg.overlap);
    var b := Min(a + cfg.chunkSize, |words|);
    assert Split(row.chunk.text) == Texts(words)[a..b];
  }

  /** Row and point of one id are the same chunk of the document. */
  lemma TracedChunk(cfg: Config, work: map<nat, Work>, id: ChunkId, row: ChunkRow, point: Point)
    requires RowTraced(cfg, work, id, row) && PointTraced(cfg, work, id, point)
    requires work[id.attempt].original.Readable?
    ensures ValidSizes(cfg.chunkSize, cfg.overlap)
    ensures var chunks := Chunks(WordStream(work[id.attempt].original.pages), cfg.chunkSize, cfg.overlap);
            id.index < |chunks| && row.chunk == chunks[id.index] && point.payload.pageEnd == chunks[id.index].pageEnd
  {
    hide Chunks, WordStream;
  }

  /** A point keeps its trace while attempts are added. */
  lemma PointStaysTraced(cfg: Config, work: map<nat, Work>, work': map<nat, Work>, id: ChunkId, point: Point)
    requires PointTraced(cfg, work, id, point) && Extends(work, work')
    ensures PointTraced(cfg, work', id, point)
  {
    hide PointsBy;
  }

  /**
   The index is searched in one state the ingestion protocol can reach, and the rows are read in any later one, with
   attempts overlapping or not: when the bound applies to the targeted document, every passage belongs to that owner
   and document, and all its words are on pages at or before the reader's current page, zero if no position is
   recorded.
   */
  lemma NothingUnreadReturned(cfg: Config, history: seq<Step>, later: seq<Step>, score: Vector -> real,
                              row: Option<Position>, request: Request, defaultLimit: nat, texts: seq<string>,
                              title: string, k: nat)
    requires Valid(cfg, EMPTY, history) && Valid(cfg, Run(cfg, EMPTY, history), later)
    requires request.document.Some? && (!request.includeUnread || SpoilerOn(row, request))
    requires var s := Run(cfg, EMPTY, history); var d := request.document.value;
             d in s.documents && s.documents[d].original == Readable(ParsedPages(texts), title) &&
             k < |Retrieve(s.points, Run(cfg, s, later).rows, score, row, request, defaultLimit)|
    ensures var s := Run(cfg, EMPTY, history);
            var rows := Run(cfg, s, later).rows;
            var passage := Retrieve(s.points, rows, score, row, request, defaultLimit)[k];
            var page := if row.Some? then row.value.currentPage else 0;
            RowFound(rows, request.owner, passage.id) && rows[passage.id].document == request.document.value &&
            passage.text == rows[passage.id].chunk.text &&
            WithinPages(WordStream(ParsedPages(texts)), passage.text, page)
  {
    var s := Run(cfg, EMPTY, history);
    var rows := Run(cfg, s, later).rows;
    var page := if row.Some? then row.value.currentPage else 0;
    assert ReadRangeBound(row, request) == Some(page);
    PassageSource(s.points, rows, score, row, request, defaultLimit, k);
    var work := RunTraced(cfg, EMPTY, history, map[]);
    var work' := RunTraced(cfg, s, later, work);
    hide Retrieve, Valid, Run, RowsBy, PointsBy, WithinPages;
    var id := Retrieve(s.points, rows, score, row, request, defaultLimit)[k].id;
    assert PointTraced(cfg, work, id, s.points[id]);
    PointStaysTraced(cfg, work, work', id, s.points[id]);
    assert RowTraced(cfg, work', id, rows[id]);
    SameDocument(cfg, work', id, rows[id], s.points[id]);
    RowWithinBound(cfg, work', id, rows[id], s.points[id], texts, page);
  }

  lemma SameDocument(cfg: Config, work: map<nat, Work>, id: ChunkId, row: ChunkRow, point: Point)
    requires RowTraced(cfg, work, id, row) && PointTraced(cfg, work, id, point)
    ensures row.document == point.payload.document == work[id.attempt].document
  {
    hide ChunksFor;
  }
}
