/**
 The ingestion worker as it runs: four phases over the stores, any await of which may raise, and between which other
 sessions go on. Every method is proved to take steps of the protocol among theirs, so what the protocol keeps over all
 runs holds of the code.
 */
module Pipeline {
  import opened Chunking
  import opened Ingestion
  import opened Shared

  /** The awaits of one run, in order. */
  datatype Await =
    | LoadDocument | CommitClaim
    | FetchObject | EmbedTexts
    | EnsureCollection | ClearPoints | UpsertPoints
    | DeleteRows | InsertRows | ReloadDocument | UndoPoints | AddEvent | CommitTerminal

  /** Where, if anywhere, this run raises. */
  datatype Fault = NoFault | RaisesAt(point: Await)

  /**
   How a run ends. One that raises before its claim commits has claimed nothing; one whose document is gone when it
   wants to commit has undone its vectors.
   */
  datatype Outcome = Skipped | Completed | Undone | Unparseable | Unclaimed | Aborted

  datatype Claim = ClaimFailed | NothingToDo | ClaimedBy(attempt: nat, original: Original)

  datatype Prepared =
    | ParseError
    | PrepareFailed
    | Ready(ids: seq<ChunkId>, chunkRows: seq<ChunkRow>, vectors: seq<Vector>)

  // -------------------------------------------- the run, as protocol steps

  /** How many of the full run's steps were taken, and how the run ended. */
  datatype Progress = Progress(taken: nat, outcome: Outcome)

  /** The steps of a run that nothing interrupts, in order; an interrupted one takes the first few. */
  function FullRun(m: Message, a: nat): seq<Step> {
    [Deliver(m), Embed(a), ClearVectors(a), UpsertVectors(a), Commit(a)]
  }

  /** How many of phase 3 and 4's steps take effect; with no chunks there is nothing to upsert or insert. */
  function Written(fault: Fault, empty: bool): (written: nat)
    ensures written <= 3
  {
    if fault == RaisesAt(EnsureCollection) || fault == RaisesAt(ClearPoints) then 0
    else if fault == RaisesAt(UpsertPoints) && !empty then 1
    else if fault == RaisesAt(DeleteRows) || (fault == RaisesAt(InsertRows) && !empty) ||
            fault == RaisesAt(ReloadDocument) || fault == RaisesAt(AddEvent) || fault == RaisesAt(CommitTerminal) then 2
    else 3
  }

  /** How far a run gets, given where it raises. */
  function Progressed(cfg: Config, s: State, m: Message, fault: Fault): (progress: Progress)
    ensures progress.taken <= 5
  {
    if fault == RaisesAt(LoadDocument) then Progress(0, Unclaimed)
    else if !Found(s.documents, m.owner, m.document) || s.documents[m.document].status == Indexed then
      Progress(1, Skipped)
    else if fault == RaisesAt(CommitClaim) then Progress(0, Unclaimed)
    else ClaimedProgress(cfg, s.documents[m.document].original, fault)
  }

  /** How far a claimed run gets, when its document stays. */
  function ClaimedProgress(cfg: Config, original: Original, fault: Fault): (progress: Progress)
    ensures 1 <= progress.taken <= 5
  {
    var empty := ChunksFor(cfg, original) == [];
    if fault == RaisesAt(FetchObject) then Progress(1, Aborted)
    else if original.Unreadable? then Progress(1, Unparseable)
    else if !ValidSizes(cfg.chunkSize, cfg.overlap) then Progress(1, Aborted)
    else if fault == RaisesAt(EmbedTexts) && !empty then Progress(1, Aborted)
    else
      var written := Written(fault, empty);
      Progress(2 + written, if written == 3 then Completed else Aborted)
  }

  /** The protocol steps of a run. */
  function RunSteps(cfg: Config, s: State, m: Message, fault: Fault): seq<Step> {
    FullRun(m, s.nextAttempt)[..Progressed(cfg, s, m, fault).taken]
  }

  // ------------------------------------------------------------ pure helpers

  /** Rows with freshly minted ids, one for each chunk, in order. */
  method BuildChunkRows(chunks: seq<ChunkData>, attempt: nat, document: DocumentId, owner: UserId)
    returns (ids: seq<ChunkId>, chunkRows: seq<ChunkRow>)
    ensures |ids| == |chunkRows| == |chunks|
    ensures forall i :: 0 <= i < |chunks| ==>
              ids[i] == ChunkId(attempt, i) && chunkRows[i] == ChunkRow(document, owner, chunks[i])
  {
    ids, chunkRows := [], [];
    for i := 0 to |chunks|
      invariant |ids| == |chunkRows| == i
      invariant forall j :: 0 <= j < i ==>
                  ids[j] == ChunkId(attempt, j) && chunkRows[j] == ChunkRow(document, owner, chunks[j])
    {
      ids := ids + [ChunkId(attempt, i)];
      chunkRows := chunkRows + [ChunkRow(document, owner, chunks[i])];
    }
  }

  /** Embedding slice by slice: whatever the batch size, vector `i` belongs to text `i`. */
  method EmbedInBatches(embed: string -> Vector, texts: seq<string>, batchSize: nat) returns (out: seq<Vector>)
    requires 0 < batchSize
    ensures |out| == |texts|
    ensures forall i :: 0 <= i < |texts| ==> out[i] == embed(texts[i])
  {
    out := [];
    var start := 0;
    while start < |texts|
      invariant 0 <= start
      invariant |out| == Min(start, |texts|)
      invariant forall i :: 0 <= i < |out| ==> out[i] == embed(texts[i])
    {
      var batch := texts[start..Min(start + batchSize, |texts|)];
      var response := seq(|batch|, i requires 0 <= i < |batch| => embed(batch[i]));
      out := out + response;
      start := start + batchSize;
    }
  }

  /** The first `count` of an attempt's rows. */
  function RowsUpTo(cfg: Config, a: nat, m: Message, original: Original, count: nat): map<ChunkId, ChunkRow>
    requires count <= |ChunksFor(cfg, original)|
  {
    map id | id in Ids(a, count) :: ChunkRow(m.document, m.owner, ChunksFor(cfg, original)[id.index])
  }

  /** The first `count` of an attempt's points. */
  function PointsUpTo(cfg: Config, a: nat, m: Message, original: Original, count: nat): map<ChunkId, Point>
    requires count <= |ChunksFor(cfg, original)|
  {
    var rows := RowsUpTo(cfg, a, m, original, count);
    map id | id in rows :: PointOf(cfg, rows[id], TitleOf(original))
  }

  lemma UpToGrows(cfg: Config, a: nat, m: Message, original: Original, count: nat)
    requires count < |ChunksFor(cfg, original)|
    ensures var row := ChunkRow(m.document, m.owner, ChunksFor(cfg, original)[count]);
            RowsUpTo(cfg, a, m, original, count + 1) ==
            RowsUpTo(cfg, a, m, original, count)[ChunkId(a, count) := row] &&
            PointsUpTo(cfg, a, m, original, count + 1) ==
            PointsUpTo(cfg, a, m, original, count)[ChunkId(a, count) := PointOf(cfg, row, TitleOf(original))]
  {
    hide ChunksFor, PointOf;
    assert Ids(a, count + 1) == Ids(a, count) + {ChunkId(a, count)};
  }

  lemma ReadableIfChunks(cfg: Config, original: Original)
    ensures ChunksFor(cfg, original) != [] ==> original.Readable? && TitleOf(original) == original.title
  {
    hide Chunks;
  }

  lemma UpToAll(cfg: Config, a: nat, m: Message, original: Original)
    ensures RowsUpTo(cfg, a, m, original, 0) == map[] && PointsUpTo(cfg, a, m, original, 0) == map[]
    ensures RowsUpTo(cfg, a, m, original, |ChunksFor(cfg, original)|) == RowsBy(cfg, a, m.owner, m.document, original)
    ensures PointsUpTo(cfg, a, m, original, |ChunksFor(cfg, original)|) ==
            PointsBy(cfg, a, m.owner, m.document, original)
  {
    hide ChunksFor, PointOf;
  }

  lemma AddOne<K, V>(base: map<K, V>, more: map<K, V>, k: K, v: V)
    ensures (base + more)[k := v] == base + more[k := v]
  {
  }

  /** Whether the terminal transaction takes effect, given where it raises and whether the document is still there. */
  predicate CommitTakesEffect(fault: Fault, found: bool, empty: bool) {
    fault != RaisesAt(DeleteRows) && (empty || (fault != RaisesAt(InsertRows) && found)) &&
    fault != RaisesAt(ReloadDocument) &&
    if found then fault != RaisesAt(AddEvent) && fault != RaisesAt(CommitTerminal)
    else fault != RaisesAt(Await.UndoPoints)
  }

  /** Under the id stand this vector and this row's own owner, document, place, pages, digest and title. */
  predicate Zipped(points: map<ChunkId, Point>, id: ChunkId, vector: Vector, row: ChunkRow, original: Original) {
    id in points && points[id].vector == vector &&
    var payload := points[id].payload;
    payload.owner == row.owner && payload.document == row.document && payload.ordinal == row.chunk.ordinal &&
    payload.pageStart == row.chunk.pageStart && payload.pageEnd == row.chunk.pageEnd &&
    payload.contentHash == row.chunk.contentHash && original.Readable? && payload.title == original.title
  }

  // -------------------------------------------------------------- the worker

  /** An attempt's own steps; everyone else's are other sessions'. */
  predicate Moves(step: Step, a: nat) {
    match step
    case Embed(b) => b == a
    case ClearVectors(b) => b == a
    case UpsertVectors(b) => b == a
    case Commit(b) => b == a
    case Finish(b) => b == a
    case ParseFailure(b) => b == a
    case TransientFailure(b) => b == a
    case GiveUp(b) => b == a
    case Crash(b) => b == a
    case _ => false
  }

  /** Nobody else does anything at the four awaits of a run. */
  const QUIET: seq<seq<Step>> := [[], [], [], []]

  /** The stores as one worker sees them, with the protocol's bookkeeping of attempts, dispatches and deletes. */
  class Stores {
    var documents: map<DocumentId, Document>
    var rows: map<ChunkId, ChunkRow>
    var points: map<ChunkId, Point>
    var outbox: seq<Event>
    var queue: multiset<Message>
    var nextAttempt: nat
    var attempts: map<nat, Attempt>
    var sent: multiset<nat>
    var deleting: set<DocumentId>
    var nextDocument: nat

    function Snapshot(): State
      reads this
    {
      State(documents, rows, points, outbox, sent, queue, attempts, deleting, nextDocument, nextAttempt)
    }

    /** Phase 1: load the document, skip it if it is gone or indexed, else mark it processing. */
    method TakeUp(cfg: Config, m: Message, fault: Fault) returns (claim: Claim)
      requires m in queue
      modifies this
      ensures claim.ClaimFailed? ==> Snapshot() == old(Snapshot())
      ensures !claim.ClaimFailed? ==> Snapshot() == Apply(cfg, old(Snapshot()), Deliver(m))
      ensures claim ==
              (if fault == RaisesAt(LoadDocument) then ClaimFailed
               else if !Found(old(documents), m.owner, m.document) || old(documents)[m.document].status == Indexed
               then NothingToDo
               else if fault == RaisesAt(CommitClaim) then ClaimFailed
               else ClaimedBy(old(nextAttempt), old(documents)[m.document].original))
    {
      hide Apply, Enabled;
      DeliverEnabled(cfg, Snapshot(), m);
      if fault == RaisesAt(LoadDocument) {
        return ClaimFailed;
      }
      if !(m.document in documents && documents[m.document].owner == m.owner) ||
         documents[m.document].status == Indexed {
        queue := queue - multiset{m};
        return NothingToDo;
      }
      var document := documents[m.document].(status := Processing);
      if fault == RaisesAt(CommitClaim) {
        return ClaimFailed;
      }
      documents := documents[m.document := document];
      queue := queue - multiset{m};
      attempts := attempts[nextAttempt := Attempt(m, document.original, Claimed)];
      nextAttempt := nextAttempt + 1;
      return ClaimedBy(nextAttempt - 1, document.original);
    }

    /** Phase 2: fetch, parse, chunk and embed, touching no store. */
    method Prepare(cfg: Config, a: nat, m: Message, original: Original, batchSize: nat, fault: Fault)
      returns (prepared: Prepared)
      requires InPhase(Snapshot(), a, Claimed) && attempts[a] == Attempt(m, original, Claimed)
      requires 0 < batchSize
      modifies this
      ensures !prepared.Ready? ==> Snapshot() == old(Snapshot())
      ensures prepared.ParseError? <==> fault != RaisesAt(FetchObject) && original.Unreadable?
      ensures prepared.Ready? <==>
              fault != RaisesAt(FetchObject) && original.Readable? && ValidSizes(cfg.chunkSize, cfg.overlap) &&
              !(fault == RaisesAt(EmbedTexts) && ChunksFor(cfg, original) != [])
      ensures prepared.Ready? ==> Enabled(cfg, old(Snapshot()), Embed(a))
      ensures prepared.Ready? ==> Snapshot() == Apply(cfg, old(Snapshot()), Embed(a))
      ensures prepared.Ready? ==>
                var chunks := ChunksFor(cfg, original);
                |prepared.ids| == |prepared.chunkRows| == |prepared.vectors| == |chunks| &&
                forall i :: 0 <= i < |chunks| ==>
                  prepared.ids[i] == ChunkId(a, i) &&
                  prepared.chunkRows[i] == ChunkRow(m.document, m.owner, chunks[i]) &&
                  prepared.vectors[i] == cfg.embed(chunks[i].text)
    {
      hide Chunks, RowsBy, PointsBy, PointsExcept, RowsExcept;
      if fault == RaisesAt(FetchObject) {
        return PrepareFailed;
      }
      if original.Unreadable? {
        return ParseError;
      }
      var result := ChunkDocument(original.pages, cfg.chunkSize, cfg.overlap);
      if result.Rejected? {
        return PrepareFailed;
      }
      var ids, chunkRows := BuildChunkRows(result.chunks, a, m.document, m.owner);
      var texts := seq(|chunkRows|, i requires 0 <= i < |chunkRows| => chunkRows[i].chunk.text);
      var vectors: seq<Vector> := [];
      if texts != [] {
        if fault == RaisesAt(EmbedTexts) {
          return PrepareFailed;
        }
        vectors := EmbedInBatches(cfg.embed, texts, batchSize);
      }
      attempts := attempts[a := attempts[a].(phase := Embedded)];
      return Ready(ids, chunkRows, vectors);
    }

    /** Phase 3, first half: clear whatever an earlier attempt left in the index. */
    method ClearIndex(cfg: Config, a: nat, m: Message, fault: Fault) returns (ok: bool)
      requires InPhase(Snapshot(), a, Embedded) && attempts[a].message == m
      modifies this
      ensures ok <==> fault !in {RaisesAt(EnsureCollection), RaisesAt(ClearPoints)}
      ensures Snapshot() == if ok then Apply(cfg, old(Snapshot()), ClearVectors(a)) else old(Snapshot())
    {
      if fault == RaisesAt(EnsureCollection) || fault == RaisesAt(ClearPoints) {
        return false;
      }
      points := map id | id in points &&
                         !(points[id].payload.owner == m.owner && points[id].payload.document == m.document)
                       :: points[id];
      attempts := attempts[a := attempts[a].(phase := Cleared)];
      return true;
    }

    /** Phase 3, second half: upsert ids, vectors and payloads, zipped by position. */
    method Upsert(cfg: Config, a: nat, original: Original, m: Message, ids: seq<ChunkId>, chunkRows: seq<ChunkRow>,
                  vectors: seq<Vector>, fault: Fault) returns (ok: bool)
      requires InPhase(Snapshot(), a, Cleared) && attempts[a] == Attempt(m, original, Cleared)
      requires var chunks := ChunksFor(cfg, original);
               |ids| == |chunkRows| == |vectors| == |chunks| &&
               forall i :: 0 <= i < |chunks| ==>
                 ids[i] == ChunkId(a, i) && chunkRows[i] == ChunkRow(m.document, m.owner, chunks[i]) &&
                 vectors[i] == cfg.embed(chunks[i].text)
      modifies this
      ensures ok <==> !(fault == RaisesAt(UpsertPoints) && chunkRows != [])
      ensures Snapshot() == if ok then Apply(cfg, old(Snapshot()), UpsertVectors(a)) else old(Snapshot())
      ensures ok ==> forall i :: 0 <= i < |ids| ==> Zipped(points, ids[i], vectors[i], chunkRows[i], original)
      ensures ok ==> forall id :: id !in ids && id in old(points) ==> id in points && points[id] == old(points)[id]
    {
      hide ChunksFor, RowsBy, PointsBy, RowsUpTo, PointsUpTo;
      if chunkRows != [] && fault == RaisesAt(UpsertPoints) {
        return false;
      }
      UpToAll(cfg, a, m, original);
      ReadableIfChunks(cfg, original);
      ghost var before := points;
      for i := 0 to |ids|
        invariant points == before + PointsUpTo(cfg, a, m, original, i)
        invariant Snapshot() == old(Snapshot()).(points := points)
        invariant forall j :: 0 <= j < i ==> Zipped(points, ids[j], vectors[j], chunkRows[j], original)
        invariant forall id :: id !in ids && id in before ==> id in points && points[id] == before[id]
      {
        UpToGrows(cfg, a, m, original, i);
        var point := Point(vectors[i], PayloadOf(chunkRows[i], TitleOf(original)));
        assert forall j :: 0 <= j < i ==> ids[j] != ids[i];
        AddOne(before, PointsUpTo(cfg, a, m, original, i), ids[i], point);
        points := points[ids[i] := point];
      }
      attempts := attempts[a := attempts[a].(phase := Upserted)];
      return true;
    }

    /** The document was deleted while the run was under way: undo the vectors and stop. */
    method UndoPoints(cfg: Config, a: nat, m: Message, fault: Fault) returns (ok: bool)
      requires a in attempts && attempts[a].message == m && !Found(documents, m.owner, m.document)
      modifies this
      ensures ok <==> fault != RaisesAt(Await.UndoPoints)
      ensures Snapshot() == if ok then ApplyCommit(cfg, old(Snapshot()), a) else old(Snapshot())
    {
      if fault == RaisesAt(Await.UndoPoints) {
        return false;
      }
      points := map id | id in points &&
                         !(points[id].payload.owner == m.owner && points[id].payload.document == m.document)
                       :: points[id];
      attempts := attempts - {a};
      return true;
    }

    /** Phase 4: one transaction replaces the rows, flips the status, adds the event; none of it shows before. */
    method Persist(cfg: Config, a: nat, original: Original, m: Message, ids: seq<ChunkId>, chunkRows: seq<ChunkRow>,
                   fault: Fault) returns (ok: bool)
      requires InPhase(Snapshot(), a, Upserted) && attempts[a] == Attempt(m, original, Upserted)
      requires var chunks := ChunksFor(cfg, original);
               |ids| == |chunkRows| == |chunks| &&
               forall i :: 0 <= i < |chunks| ==>
                 ids[i] == ChunkId(a, i) && chunkRows[i] == ChunkRow(m.document, m.owner, chunks[i])
      modifies this
      ensures ok <==> CommitTakesEffect(fault, Found(old(documents), m.owner, m.document), chunkRows == [])
      ensures Snapshot() == if ok then ApplyCommit(cfg, old(Snapshot()), a) else old(Snapshot())
    {
      hide ChunksFor, RowsBy, PointsBy, RowsUpTo, PointsUpTo;
      if fault == RaisesAt(DeleteRows) {
        return false;
      }
      var staged := map id | id in rows && !(rows[id].owner == m.owner && rows[id].document == m.document) :: rows[id];
      var found := m.document in documents && documents[m.document].owner == m.owner;
      // Rows of a document that is gone violate the foreign key.
      if chunkRows != [] && (fault == RaisesAt(InsertRows) || !found) {
        return false;
      }
      UpToAll(cfg, a, m, original);
      ghost var kept := staged;
      for i := 0 to |ids|
        invariant staged == kept + RowsUpTo(cfg, a, m, original, i)
        modifies {}
      {
        UpToGrows(cfg, a, m, original, i);
        AddOne(kept, RowsUpTo(cfg, a, m, original, i), ids[i], chunkRows[i]);
        staged := staged[ids[i] := chunkRows[i]];
      }
      if fault == RaisesAt(ReloadDocument) {
        return false;
      }
      if !found {
        ok := UndoPoints(cfg, a, m, fault);
        return;
      }
      var document := documents[m.document].(status := Indexed);
      if fault == RaisesAt(AddEvent) {
        return false;
      }
      var event := Event(DocumentIndexed, m.document, m.owner, false);
      if fault == RaisesAt(CommitTerminal) {
        return false;
      }
      rows, documents, outbox := staged, documents[m.document := document], outbox + [event];
      attempts := attempts[a := attempts[a].(phase := Committed)];
      return true;
    }

    /** On the way from `s` by `steps`, attempt `a` is this run's and stands at `phase`. */
    ghost predicate Along(cfg: Config, s: State, steps: seq<Step>, a: nat, work: Attempt)
      reads this
    {
      Valid(cfg, s, steps) && Snapshot() == Run(cfg, s, steps) &&
      a in attempts && attempts[a] == work && a < nextAttempt
    }

    /** One step of the protocol, taken by whoever it belongs to. */
    method Perform(cfg: Config, step: Step)
      requires Enabled(cfg, Snapshot(), step)
      modifies this
      ensures Snapshot() == Apply(cfg, old(Snapshot()), step)
    {
      hide Apply, Enabled;
      var s := Apply(cfg, Snapshot(), step);
      SetTables(s);
      SetBookkeeping(s);
    }

    method SetTables(s: State)
      modifies `documents, `rows, `points, `outbox, `queue
      ensures documents == s.documents && rows == s.rows && points == s.points && outbox == s.outbox && queue == s.queue
    {
      documents, rows, points, outbox, queue := s.documents, s.rows, s.points, s.outbox, s.queue;
    }

    method SetBookkeeping(s: State)
      modifies `sent, `attempts, `deleting, `nextDocument, `nextAttempt
      ensures sent == s.sent && attempts == s.attempts && deleting == s.deleting
      ensures nextDocument == s.nextDocument && nextAttempt == s.nextAttempt
    {
      sent, attempts, deleting, nextDocument, nextAttempt :=
        s.sent, s.attempts, s.deleting, s.nextDocument, s.nextAttempt;
    }

    /**
     An await: of the steps offered, other sessions take those possible just then that are not this attempt's. When this
     document is to have one attempt at a time, `alone`, they take up no message of a busy document.
     */
    method Pause(cfg: Config, others: seq<Step>, a: nat, work: Attempt, alone: bool,
                 ghost s: State, ghost before: seq<Step>)
      returns (ghost steps: seq<Step>)
      requires Along(cfg, s, before, a, work)
      modifies this
      ensures Along(cfg, s, steps, a, work)
      ensures others == [] ==> steps == before && Snapshot() == old(Snapshot())
      ensures alone && Exclusive(cfg, s, before) ==> Exclusive(cfg, s, steps)
    {
      hide Apply, Enabled, Valid, Run, Exclusive, OneAtATime, Moves;
      steps := before;
      for i := 0 to |others|
        invariant Along(cfg, s, steps, a, work)
        invariant i == 0 ==> steps == before && Snapshot() == old(Snapshot())
        invariant alone && Exclusive(cfg, s, before) ==> Exclusive(cfg, s, steps)
      {
        var step := others[i];
        if Enabled(cfg, Snapshot(), step) && !Moves(step, a) && (!alone || OneAtATime(Snapshot(), step)) {
          LeadsOn(cfg, s, steps, Snapshot(), step);
          OthersLeave(cfg, Snapshot(), step, a);
          Perform(cfg, step);
          steps := steps + [step];
        }
      }
    }

    /** The same while message `m` is in delivery but claimed nothing: it stays with this worker. */
    method PauseUnclaimed(cfg: Config, others: seq<Step>, m: Message, alone: bool)
      returns (ghost steps: seq<Step>)
      requires m in queue
      modifies this
      ensures Valid(cfg, old(Snapshot()), steps) && Snapshot() == Run(cfg, old(Snapshot()), steps) && m in queue
      ensures others == [] ==> steps == [] && Snapshot() == old(Snapshot())
      ensures alone && !Busy(old(Snapshot()), m.document) ==>
                Exclusive(cfg, old(Snapshot()), steps) && !Busy(Snapshot(), m.document)
    {
      hide Apply, Enabled, Valid, Run, Exclusive, OneAtATime, Busy;
      ghost var s := Snapshot();
      NoStepsYet(cfg, s);
      steps := [];
      for i := 0 to |others|
        invariant Valid(cfg, s, steps) && Snapshot() == Run(cfg, s, steps) && m in queue
        invariant i == 0 ==> steps == [] && Snapshot() == s
        invariant alone && !Busy(s, m.document) ==> Exclusive(cfg, s, steps) && !Busy(Snapshot(), m.document)
      {
        var step := others[i];
        if Enabled(cfg, Snapshot(), step) && m in Apply(cfg, Snapshot(), step).queue &&
           (!alone || (OneAtATime(Snapshot(), step) && !TakesUp(step, m.document))) {
          LeadsOn(cfg, s, steps, Snapshot(), step);
          if !TakesUp(step, m.document) {
            StaysIdle(cfg, Snapshot(), step, m.document);
          }
          Perform(cfg, step);
          steps := steps + [step];
        }
      }
    }

    /** The four phases in sequence, whatever other sessions do at the awaits between them. */
    method RunIngestion(cfg: Config, m: Message, batchSize: nat, fault: Fault, meanwhile: seq<seq<Step>>, alone: bool)
      returns (outcome: Outcome, ghost steps: seq<Step>)
      requires m in queue && 0 < batchSize && |meanwhile| == 4
      modifies this
      ensures Valid(cfg, old(Snapshot()), steps) && Snapshot() == Run(cfg, old(Snapshot()), steps)
      ensures alone && !Busy(old(Snapshot()), m.document) ==> Exclusive(cfg, old(Snapshot()), steps)
      ensures Ended(Snapshot(), old(nextAttempt), m, outcome) && (outcome == Unclaimed ==> steps == [])
      ensures meanwhile == QUIET ==>
                outcome == Progressed(cfg, old(Snapshot()), m, fault).outcome &&
                steps == RunSteps(cfg, old(Snapshot()), m, fault)
    {
      hide ChunksFor, RowsBy, PointsBy, PointsExcept, RowsExcept, Apply, Enabled, Valid, Run, Exclusive,
           ClaimedProgress, ApplyDeliver, Busy;
      ghost var s, full := Snapshot(), FullRun(m, nextAttempt);
      assert full[..0] == [] && full[..1] == [Deliver(m)];
      NoStepsYet(cfg, s);
      var claim := TakeUp(cfg, m, fault);
      if claim.ClaimFailed? {
        return Unclaimed, [];
      }
      DeliverEnabled(cfg, s, m);
      LeadsOn(cfg, s, [], s, Deliver(m));
      steps := [] + [Deliver(m)];
      if claim.NothingToDo? {
        return Skipped, steps;
      }
      ClaimApplied(s, m);
      outcome, steps := RunClaimed(cfg, m, claim.attempt, claim.original, batchSize, fault, meanwhile, alone, s, steps);
    }

    /** Phases 2 to 4 of a claimed document. */
    method RunClaimed(cfg: Config, m: Message, a: nat, original: Original, batchSize: nat, fault: Fault,
                      meanwhile: seq<seq<Step>>, alone: bool, ghost s: State, ghost before: seq<Step>)
      returns (outcome: Outcome, ghost steps: seq<Step>)
      requires 0 < batchSize && |meanwhile| == 4 && before == [Deliver(m)]
      requires Along(cfg, s, before, a, Attempt(m, original, Claimed))
      modifies this
      ensures Valid(cfg, s, steps) && Snapshot() == Run(cfg, s, steps) && Ended(Snapshot(), a, m, outcome)
      ensures alone && Exclusive(cfg, s, before) ==> Exclusive(cfg, s, steps)
      ensures outcome !in {Skipped, Unclaimed}
      ensures meanwhile == QUIET && Found(old(documents), m.owner, m.document) ==>
                var progress := ClaimedProgress(cfg, original, fault);
                outcome == progress.outcome && steps == FullRun(m, a)[..progress.taken]
    {
      hide ChunksFor, RowsBy, PointsBy, PointsExcept, RowsExcept, Valid, Run, Apply, Enabled, Exclusive;
      ghost var full := FullRun(m, a);
      assert full[..1] == [Deliver(m)];
      steps := Pause(cfg, meanwhile[0], a, Attempt(m, original, Claimed), alone, s, before);
      ghost var claimed := Snapshot();
      var prepared := Prepare(cfg, a, m, original, batchSize, fault);
      if prepared.ParseError? {
        return Unparseable, steps;
      }
      if prepared.PrepareFailed? {
        return Aborted, steps;
      }
      LeadsOn(cfg, s, steps, claimed, Embed(a));
      EmbedApplied(cfg, claimed, a);
      steps := steps + [Embed(a)];
      assert [Deliver(m)] + [Embed(a)] == full[..2];
      outcome, steps :=
        WriteClaimed(cfg, m, a, original, prepared.ids, prepared.chunkRows, prepared.vectors, fault, meanwhile, alone,
                     s, steps);
    }

    /** Phases 3 and 4. */
    method WriteClaimed(cfg: Config, m: Message, a: nat, original: Original, ids: seq<ChunkId>,
                        chunkRows: seq<ChunkRow>, vectors: seq<Vector>, fault: Fault,
                        meanwhile: seq<seq<Step>>, alone: bool, ghost s: State, ghost before: seq<Step>)
      returns (outcome: Outcome, ghost steps: seq<Step>)
      requires |meanwhile| == 4 && Along(cfg, s, before, a, Attempt(m, original, Embedded))
      requires var chunks := ChunksFor(cfg, original);
               |ids| == |chunkRows| == |vectors| == |chunks| &&
               forall i :: 0 <= i < |chunks| ==>
                 ids[i] == ChunkId(a, i) && chunkRows[i] == ChunkRow(m.document, m.owner, chunks[i]) &&
                 vectors[i] == cfg.embed(chunks[i].text)
      modifies this
      ensures Valid(cfg, s, steps) && Snapshot() == Run(cfg, s, steps) && Ended(Snapshot(), a, m, outcome)
      ensures alone && Exclusive(cfg, s, before) ==> Exclusive(cfg, s, steps)
      ensures outcome in {Completed, Undone, Aborted}
      ensures meanwhile == QUIET && Found(old(documents), m.owner, m.document) ==>
                var written := Written(fault, chunkRows == []);
                outcome == (if written == 3 then Completed else Aborted) &&
                steps == before + [ClearVectors(a), UpsertVectors(a), Commit(a)][..written]
    {
      hide ChunksFor, RowsBy, PointsBy, PointsExcept, RowsExcept, Valid, Run, Apply, Enabled, Exclusive;
      var ok: bool;
      ok, steps := PauseAndClear(cfg, m, a, original, fault, meanwhile[1], alone, s, before);
      if !ok {
        return Aborted, steps;
      }
      ok, steps := PauseAndUpsert(cfg, m, a, original, ids, chunkRows, vectors, fault, meanwhile[2], alone, s, steps);
      if !ok {
        return Aborted, steps;
      }
      outcome, steps := PauseAndPersist(cfg, m, a, original, ids, chunkRows, fault, meanwhile[3], alone, s, steps);
    }

    method PauseAndClear(cfg: Config, m: Message, a: nat, original: Original, fault: Fault, others: seq<Step>,
                         alone: bool, ghost s: State, ghost before: seq<Step>)
      returns (ok: bool, ghost steps: seq<Step>)
      requires Along(cfg, s, before, a, Attempt(m, original, Embedded))
      modifies this
      ensures Along(cfg, s, steps, a, Attempt(m, original, if ok then Cleared else Embedded))
      ensures alone && Exclusive(cfg, s, before) ==> Exclusive(cfg, s, steps)
      ensures ok <==> fault !in {RaisesAt(EnsureCollection), RaisesAt(ClearPoints)}
      ensures others == [] ==>
                steps == (if ok then before + [ClearVectors(a)] else before) && documents == old(documents)
    {
      hide PointsExcept, Valid, Run, Apply, Enabled, Exclusive;
      steps := Pause(cfg, others, a, Attempt(m, original, Embedded), alone, s, before);
      ghost var now := Snapshot();
      WriteApplied(cfg, now, a);
      ok := ClearIndex(cfg, a, m, fault);
      if ok {
        LeadsOn(cfg, s, steps, now, ClearVectors(a));
        steps := steps + [ClearVectors(a)];
      }
    }

    method PauseAndUpsert(cfg: Config, m: Message, a: nat, original: Original, ids: seq<ChunkId>,
                          chunkRows: seq<ChunkRow>, vectors: seq<Vector>, fault: Fault, others: seq<Step>,
                          alone: bool, ghost s: State, ghost before: seq<Step>)
      returns (ok: bool, ghost steps: seq<Step>)
      requires Along(cfg, s, before, a, Attempt(m, original, Cleared))
      requires var chunks := ChunksFor(cfg, original);
               |ids| == |chunkRows| == |vectors| == |chunks| &&
               forall i :: 0 <= i < |chunks| ==>
                 ids[i] == ChunkId(a, i) && chunkRows[i] == ChunkRow(m.document, m.owner, chunks[i]) &&
                 vectors[i] == cfg.embed(chunks[i].text)
      modifies this
      ensures Along(cfg, s, steps, a, Attempt(m, original, if ok then Upserted else Cleared))
      ensures alone && Exclusive(cfg, s, before) ==> Exclusive(cfg, s, steps)
      ensures ok <==> !(fault == RaisesAt(UpsertPoints) && chunkRows != [])
      ensures others == [] ==>
                steps == (if ok then before + [UpsertVectors(a)] else before) && documents == old(documents)
    {
      hide ChunksFor, PointsBy, Valid, Run, Apply, Enabled, Exclusive;
      steps := Pause(cfg, others, a, Attempt(m, original, Cleared), alone, s, before);
      ghost var now := Snapshot();
      WriteApplied(cfg, now, a);
      ok := Upsert(cfg, a, original, m, ids, chunkRows, vectors, fault);
      if ok {
        LeadsOn(cfg, s, steps, now, UpsertVectors(a));
        steps := steps + [UpsertVectors(a)];
      }
    }

    method PauseAndPersist(cfg: Config, m: Message, a: nat, original: Original, ids: seq<ChunkId>,
                           chunkRows: seq<ChunkRow>, fault: Fault, others: seq<Step>,
                           alone: bool, ghost s: State, ghost before: seq<Step>)
      returns (outcome: Outcome, ghost steps: seq<Step>)
      requires Along(cfg, s, before, a, Attempt(m, original, Upserted))
      requires var chunks := ChunksFor(cfg, original);
               |ids| == |chunkRows| == |chunks| &&
               forall i :: 0 <= i < |chunks| ==>
                 ids[i] == ChunkId(a, i) && chunkRows[i] == ChunkRow(m.document, m.owner, chunks[i])
      modifies this
      ensures Valid(cfg, s, steps) && Snapshot() == Run(cfg, s, steps) && Ended(Snapshot(), a, m, outcome)
      ensures alone && Exclusive(cfg, s, before) ==> Exclusive(cfg, s, steps)
      ensures outcome in {Completed, Undone, Aborted}
      ensures others == [] && Found(old(documents), m.owner, m.document) ==>
                if CommitTakesEffect(fault, true, chunkRows == [])
                then outcome == Completed && steps == before + [Commit(a)]
                else outcome == Aborted && steps == before
    {
      hide ChunksFor, RowsBy, RowsExcept, PointsExcept, Valid, Run, Apply, Enabled, Exclusive;
      steps := Pause(cfg, others, a, Attempt(m, original, Upserted), alone, s, before);
      ghost var now := Snapshot();
      var found := m.document in documents && documents[m.document].owner == m.owner;
      WriteApplied(cfg, now, a);
      var ok := Persist(cfg, a, original, m, ids, chunkRows, fault);
      if !ok {
        return Aborted, steps;
      }
      LeadsOn(cfg, s, steps, now, Commit(a));
      steps := steps + [Commit(a)];
      outcome := if found then Completed else Undone;
    }
  }

  /** What is left of attempt `a` for the Celery task to close, by how its run ended. */
  predicate Ended(s: State, a: nat, m: Message, outcome: Outcome) {
    match outcome
    case Completed => InPhase(s, a, Committed) && s.attempts[a].message == m && a < s.nextAttempt
    case Unparseable =>
      InPhase(s, a, Claimed) && s.attempts[a].original.Unreadable? && s.attempts[a].message == m && a < s.nextAttempt
    case Aborted => a in s.attempts && s.attempts[a].message == m && a < s.nextAttempt
    case Undone => a !in s.attempts
    case _ => true
  }

  lemma NoStepsYet(cfg: Config, s: State)
    ensures Valid(cfg, s, []) && Run(cfg, s, []) == s && Exclusive(cfg, s, [])
  {
  }

  /** A step of another session leaves this attempt where it is. */
  lemma OthersLeave(cfg: Config, s: State, step: Step, a: nat)
    requires Enabled(cfg, s, step) && !Moves(step, a) && a in s.attempts && a < s.nextAttempt
    ensures var s' := Apply(cfg, s, step);
            a in s'.attempts && s'.attempts[a] == s.attempts[a] && a < s'.nextAttempt
  {
    hide RowsBy, PointsBy, PointsExcept, RowsExcept, ChunksFor, Dispatched, Stamped, Unprocessed, MessagesFor,
         WithStatus, Raised;
    match step
    case DeliverFailure(m) => RaisedLeaves(cfg, s.(queue := s.queue - multiset{m}), m);
    case TransientFailure(b) => RaisedLeaves(cfg, s.(attempts := s.attempts - {b}), s.attempts[b].message);
    case _ =>
  }

  lemma RaisedLeaves(cfg: Config, rest: State, m: Message)
    ensures Raised(cfg, rest, m).attempts == rest.attempts && Raised(cfg, rest, m).nextAttempt == rest.nextAttempt
  {
  }

  predicate TakesUp(step: Step, document: DocumentId) {
    step.Deliver? && step.message.document == document
  }

  /** Only taking up one of its messages makes a document busy. */
  lemma StaysIdle(cfg: Config, s: State, step: Step, document: DocumentId)
    requires Enabled(cfg, s, step) && !TakesUp(step, document)
    ensures !Busy(s, document) ==> !Busy(Apply(cfg, s, step), document)
  {
    hide Apply;
    OthersAttempts(cfg, s, step, document);
  }

  lemma OthersAttempts(cfg: Config, s: State, step: Step, document: DocumentId)
    requires Enabled(cfg, s, step) && !TakesUp(step, document)
    ensures var s' := Apply(cfg, s, step);
            forall a :: a in s'.attempts && s'.attempts[a].message.document == document ==>
              a in s.attempts && s.attempts[a].message.document == document
  {
    hide RowsBy, PointsBy, PointsExcept, RowsExcept, ChunksFor, Dispatched, Stamped, Unprocessed, MessagesFor,
         WithStatus, Found, Raised, ApplyDeliver, ApplyCommit;
    match step
    case Deliver(m) => ClaimLeaves(s, m, document);
    case DeliverFailure(m) => RaisedLeaves(cfg, s.(queue := s.queue - multiset{m}), m);
    case TransientFailure(b) => RaisedLeaves(cfg, s.(attempts := s.attempts - {b}), s.attempts[b].message);
    case Commit(b) => CommitLeaves(cfg, s, b);
    case _ =>
  }

  lemma ClaimLeaves(s: State, m: Message, document: DocumentId)
    requires m.document != document
    ensures var s' := ApplyDeliver(s, m);
            forall a :: a in s'.attempts && s'.attempts[a].message.document == document ==>
              a in s.attempts && s.attempts[a].message.document == document
  {
  }

  lemma CommitLeaves(cfg: Config, s: State, b: nat)
    requires b in s.attempts
    ensures var s' := ApplyCommit(cfg, s, b);
            forall a :: a in s'.attempts ==> a in s.attempts && s'.attempts[a].message == s.attempts[a].message
  {
    hide RowsBy, RowsExcept, PointsExcept;
  }

  lemma ClaimApplied(s: State, m: Message)
    requires Found(s.documents, m.owner, m.document) && s.documents[m.document].status != Indexed
    ensures var s', a := ApplyDeliver(s, m), s.nextAttempt;
            a in s'.attempts && a < s'.nextAttempt && Found(s'.documents, m.owner, m.document) &&
            s'.attempts[a] == Attempt(m, s.documents[m.document].original, Claimed)
  {
  }

  lemma EmbedApplied(cfg: Config, s: State, a: nat)
    requires Enabled(cfg, s, Embed(a))
    ensures Apply(cfg, s, Embed(a)) == s.(attempts := s.attempts[a := s.attempts[a].(phase := Embedded)])
  {
  }

  /** What the writing steps do, field by field. */
  lemma WriteApplied(cfg: Config, s: State, a: nat)
    requires a in s.attempts
    ensures InPhase(s, a, Embedded) ==>
              Enabled(cfg, s, ClearVectors(a)) &&
              Apply(cfg, s, ClearVectors(a)) ==
              s.(points := PointsExcept(s.points, s.attempts[a].message.owner, s.attempts[a].message.document),
                 attempts := Advance(s, a, Cleared))
    ensures InPhase(s, a, Cleared) ==>
              Enabled(cfg, s, UpsertVectors(a)) &&
              var Attempt(m, original, _) := s.attempts[a];
              Apply(cfg, s, UpsertVectors(a)) ==
              s.(points := s.points + PointsBy(cfg, a, m.owner, m.document, original),
                 attempts := Advance(s, a, Upserted))
    ensures InPhase(s, a, Upserted) &&
            (Found(s.documents, s.attempts[a].message.owner, s.attempts[a].message.document) ||
             ChunksFor(cfg, s.attempts[a].original) == []) ==>
              Enabled(cfg, s, Commit(a)) && Apply(cfg, s, Commit(a)) == ApplyCommit(cfg, s, a)
  {
    hide PointsExcept, PointsBy, ApplyCommit, ChunksFor;
  }

  lemma DeliverEnabled(cfg: Config, s: State, m: Message)
    requires m in s.queue
    ensures Enabled(cfg, s, Deliver(m)) && Apply(cfg, s, Deliver(m)) == ApplyDeliver(s, m)
  {
  }
}
