/**
 The ingestion protocol as a transition system: uploads, the outbox relay, worker attempts that can
 fail or crash at any await, redelivery, the stuck-document sweep, user retries and deletion.

 Two stores share no transaction: the relational tables (documents, chunk rows, outbox) and the
 vector index (points). Every database commit and every index call is one atomic step.
 */
module Ingestion {
  import opened Chunking
  import opened Shared

  type DocumentId = nat
  type UserId = nat
  type Vector = seq<real>

  /** The settings the protocol depends on; `embed` is the embedding model, an arbitrary function. */
  datatype Config = Config(
    chunkSize: int,
    overlap: int,
    maxRetries: nat,
    relayBatch: nat,
    embed: string -> Vector)

  /** What the stored bytes parse to. Bytes never change: their key is their hash. */
  datatype Original = Unreadable | Readable(pages: seq<Page>, title: string)

  datatype Document = Document(owner: UserId, original: Original, status: DocumentStatus)

  /** A fresh random id, minted for chunk `index` of one attempt; also the id of the chunk's point. */
  datatype ChunkId = ChunkId(attempt: nat, index: nat)

  datatype ChunkRow = ChunkRow(document: DocumentId, owner: UserId, chunk: ChunkData)

  datatype Payload = Payload(
    owner: UserId,
    document: DocumentId,
    ordinal: nat,
    pageStart: int,
    pageEnd: int,
    contentHash: string,
    title: string)

  datatype Point = Point(vector: Vector, payload: Payload)

  datatype EventKind = DocumentUploaded | DocumentIndexed

  datatype Event = Event(kind: EventKind, document: DocumentId, owner: UserId, processed: bool)

  datatype Message = Message(document: DocumentId, owner: UserId, retries: nat)

  /** How far an attempt got: the last await that took effect. */
  datatype Phase = Claimed | Embedded | Cleared | Upserted | Committed

  datatype Attempt = Attempt(message: Message, original: Original, phase: Phase)

  /** Both stores, the broker queue, and the attempts in flight. `sent` logs relay dispatches by event index. */
  datatype State = State(
    documents: map<DocumentId, Document>,
    rows: map<ChunkId, ChunkRow>,
    points: map<ChunkId, Point>,
    outbox: seq<Event>,
    sent: multiset<nat>,
    queue: multiset<Message>,
    attempts: map<nat, Attempt>,
    deleting: set<DocumentId>,
    nextDocument: nat,
    nextAttempt: nat)

  const EMPTY := State(map[], map[], map[], [], multiset{}, multiset{}, map[], {}, 0, 0)

  datatype Step =
    | Upload(owner: UserId, original: Original)
    | Relay
    | RelayCrash(dispatched: nat)
    | Deliver(message: Message)
    | DeliverFailure(message: Message)
    | Embed(attempt: nat)
    | ClearVectors(attempt: nat)
    | UpsertVectors(attempt: nat)
    | Commit(attempt: nat)
    | Finish(attempt: nat)
    | ParseFailure(attempt: nat)
    | TransientFailure(attempt: nat)
    | GiveUp(attempt: nat)
    | Crash(attempt: nat)
    | LoseMessage(message: Message)
    | Sweep(stuck: set<DocumentId>)
    | UserRetry(document: DocumentId)
    | DeleteVectors(document: DocumentId)
    | DeleteRow(document: DocumentId)

  // -------------------------------------------------- what an attempt writes

  /** The chunks of an original; none can be had from unreadable bytes or invalid sizes. */
  function ChunksFor(cfg: Config, original: Original): seq<ChunkData> {
    if original.Readable? && ValidSizes(cfg.chunkSize, cfg.overlap)
    then Chunks(WordStream(original.pages), cfg.chunkSize, cfg.overlap)
    else []
  }

  function Ids(attempt: nat, count: nat): set<ChunkId> {
    set i | 0 <= i < count :: ChunkId(attempt, i)
  }

  function PayloadOf(row: ChunkRow, title: string): Payload {
    Payload(row.owner, row.document, row.chunk.ordinal, row.chunk.pageStart, row.chunk.pageEnd,
            row.chunk.contentHash, title)
  }

  function PointOf(cfg: Config, row: ChunkRow, title: string): Point {
    Point(cfg.embed(row.chunk.text), PayloadOf(row, title))
  }

  function TitleOf(original: Original): string {
    if original.Readable? then original.title else ""
  }

  /** The rows an attempt builds: one for each chunk, in order. */
  function RowsBy(cfg: Config, attempt: nat, owner: UserId, document: DocumentId, original: Original):
    map<ChunkId, ChunkRow>
  {
    var chunks := ChunksFor(cfg, original);
    map id | id in Ids(attempt, |chunks|) :: ChunkRow(document, owner, chunks[id.index])
  }

  /** The points it upserts: one for each row, under the row's id. */
  function PointsBy(cfg: Config, attempt: nat, owner: UserId, document: DocumentId, original: Original):
    map<ChunkId, Point>
  {
    var rows := RowsBy(cfg, attempt, owner, document, original);
    map id | id in rows :: PointOf(cfg, rows[id], TitleOf(original))
  }

  // ------------------------------------------------------------ scoped reads

  function RowsFor(rows: map<ChunkId, ChunkRow>, owner: UserId, document: DocumentId): map<ChunkId, ChunkRow> {
    map id | id in rows && rows[id].owner == owner && rows[id].document == document :: rows[id]
  }

  function RowsExcept(rows: map<ChunkId, ChunkRow>, owner: UserId, document: DocumentId): map<ChunkId, ChunkRow> {
    map id | id in rows && !(rows[id].owner == owner && rows[id].document == document) :: rows[id]
  }

  function PointsFor(points: map<ChunkId, Point>, owner: UserId, document: DocumentId): map<ChunkId, Point> {
    map id | id in points && points[id].payload.owner == owner && points[id].payload.document == document :: points[id]
  }

  function PointsExcept(points: map<ChunkId, Point>, owner: UserId, document: DocumentId): map<ChunkId, Point> {
    map id | id in points && !(points[id].payload.owner == owner && points[id].payload.document == document)
           :: points[id]
  }

  /** `get` through a user-scoped repository: only the owner's row is found. */
  predicate Found(documents: map<DocumentId, Document>, owner: UserId, document: DocumentId) {
    document in documents && documents[document].owner == owner
  }

  function WithStatus(documents: map<DocumentId, Document>, owner: UserId, document: DocumentId,
                      status: DocumentStatus): map<DocumentId, Document>
  {
    if Found(documents, owner, document) then documents[document := documents[document].(status := status)]
    else documents
  }

  // ------------------------------------------------------------- the outbox

  /** The oldest `limit` unprocessed events, by index. */
  function Unprocessed(outbox: seq<Event>, limit: nat): (batch: seq<nat>)
    ensures |batch| <= limit
    ensures forall k :: 0 <= k < |batch| ==> batch[k] < |outbox| && !outbox[batch[k]].processed
  {
    if outbox == [] then []
    else
      var last := |outbox| - 1;
      var batch := Unprocessed(outbox[..last], limit);
      if !outbox[last].processed && |batch| < limit then batch + [last] else batch
  }

  /** The messages that dispatching these events enqueues; other event kinds have no consumer. */
  function Dispatched(outbox: seq<Event>, batch: seq<nat>): multiset<Message>
    requires forall k :: 0 <= k < |batch| ==> batch[k] < |outbox|
  {
    if batch == [] then multiset{}
    else
      var event := outbox[batch[|batch| - 1]];
      Dispatched(outbox, batch[..|batch| - 1]) +
      if event.kind == DocumentUploaded then multiset{Message(event.document, event.owner, 0)} else multiset{}
  }

  function Stamped(outbox: seq<Event>, batch: seq<nat>): (stamped: seq<Event>)
    ensures |stamped| == |outbox|
  {
    seq(|outbox|, i requires 0 <= i < |outbox| =>
      if i in batch then outbox[i].(processed := true) else outbox[i])
  }

  // -------------------------------------------------------------- the steps

  predicate StuckStatus(status: DocumentStatus) {
    status == Pending || status == Processing
  }

  function MessagesFor(documents: map<DocumentId, Document>, stuck: set<DocumentId>): multiset<Message>
    requires stuck <= documents.Keys
  {
    multiset(set d | d in stuck :: Message(d, documents[d].owner, 0))
  }

  predicate InPhase(s: State, a: nat, phase: Phase) {
    a in s.attempts && s.attempts[a].phase == phase
  }

  predicate Enabled(cfg: Config, s: State, step: Step) {
    match step
    case Upload(_, _) => true
    case Relay => true
    case RelayCrash(k) => k <= |Unprocessed(s.outbox, cfg.relayBatch)|
    case Deliver(m) => m in s.queue
    case DeliverFailure(m) => m in s.queue
    case Embed(a) =>
      InPhase(s, a, Claimed) && s.attempts[a].original.Readable? && ValidSizes(cfg.chunkSize, cfg.overlap)
    case ClearVectors(a) => InPhase(s, a, Embedded)
    case UpsertVectors(a) => InPhase(s, a, Cleared)
    case Commit(a) =>
      // Inserting chunk rows of a document that is gone violates the foreign key and raises instead.
      InPhase(s, a, Upserted) &&
      (Found(s.documents, s.attempts[a].message.owner, s.attempts[a].message.document) ||
       ChunksFor(cfg, s.attempts[a].original) == [])
    case Finish(a) => InPhase(s, a, Committed)
    case ParseFailure(a) => InPhase(s, a, Claimed) && s.attempts[a].original.Unreadable?
    case TransientFailure(a) => a in s.attempts
    case GiveUp(a) => a in s.attempts
    case Crash(a) => a in s.attempts
    case LoseMessage(m) => m in s.queue
    case Sweep(stuck) => stuck <= s.documents.Keys && forall d :: d in stuck ==> StuckStatus(s.documents[d].status)
    // The read that found the document failed is an await of its own; the write does not look again.
    case UserRetry(d) => d in s.documents
    case DeleteVectors(d) => d in s.documents
    case DeleteRow(d) => d in s.documents && d in s.deleting
  }

  function Advance(s: State, a: nat, phase: Phase): map<nat, Attempt>
    requires a in s.attempts
  {
    s.attempts[a := s.attempts[a].(phase := phase)]
  }

  /** The claim: skip a document that is gone or already indexed, else mark it processing. */
  function ApplyDeliver(s: State, m: Message): State {
    var rest := s.queue - multiset{m};
    if !Found(s.documents, m.owner, m.document) || s.documents[m.document].status == Indexed then
      s.(queue := rest)
    else
      s.(queue := rest,
         documents := WithStatus(s.documents, m.owner, m.document, Processing),
         attempts := s.attempts[s.nextAttempt := Attempt(m, s.documents[m.document].original, Claimed)],
         nextAttempt := s.nextAttempt + 1)
  }

  /** The terminal transaction: replace the chunk rows, flip to indexed, add the downstream event. */
  function ApplyCommit(cfg: Config, s: State, a: nat): State
    requires a in s.attempts
  {
    var Attempt(m, original, _) := s.attempts[a];
    if Found(s.documents, m.owner, m.document) then
      s.(rows := RowsExcept(s.rows, m.owner, m.document) + RowsBy(cfg, a, m.owner, m.document, original),
         documents := WithStatus(s.documents, m.owner, m.document, Indexed),
         outbox := s.outbox + [Event(DocumentIndexed, m.document, m.owner, false)],
         attempts := Advance(s, a, Committed))
    else
      s.(points := PointsExcept(s.points, m.owner, m.document), attempts := s.attempts - {a})
  }

  /** A raised message: a retry while the budget lasts, then the failure handler, which does not look at the status. */
  function Raised(cfg: Config, s: State, m: Message): State {
    if m.retries < cfg.maxRetries then
      s.(queue := s.queue + multiset{m.(retries := m.retries + 1)})
    else
      s.(documents := WithStatus(s.documents, m.owner, m.document, Failed))
  }

  function ApplyRelay(cfg: Config, s: State): State {
    var batch := Unprocessed(s.outbox, cfg.relayBatch);
    s.(outbox := Stamped(s.outbox, batch),
       sent := s.sent + multiset(batch),
       queue := s.queue + Dispatched(s.outbox, batch))
  }

  function Apply(cfg: Config, s: State, step: Step): State
    requires Enabled(cfg, s, step)
  {
    match step
    case Upload(owner, original) =>
      s.(documents := s.documents[s.nextDocument := Document(owner, original, Pending)],
         outbox := s.outbox + [Event(DocumentUploaded, s.nextDocument, owner, false)],
         nextDocument := s.nextDocument + 1)
    case Relay => ApplyRelay(cfg, s)
    case RelayCrash(k) =>
      var batch := Unprocessed(s.outbox, cfg.relayBatch)[..k];
      s.(sent := s.sent + multiset(batch), queue := s.queue + Dispatched(s.outbox, batch))
    case Deliver(m) => ApplyDeliver(s, m)
    // The claim's own transaction raised, so nothing was claimed.
    case DeliverFailure(m) => Raised(cfg, s.(queue := s.queue - multiset{m}), m)
    case Embed(a) => s.(attempts := Advance(s, a, Embedded))
    case ClearVectors(a) =>
      var m := s.attempts[a].message;
      s.(points := PointsExcept(s.points, m.owner, m.document), attempts := Advance(s, a, Cleared))
    case UpsertVectors(a) =>
      var Attempt(m, original, _) := s.attempts[a];
      s.(points := s.points + PointsBy(cfg, a, m.owner, m.document, original), attempts := Advance(s, a, Upserted))
    case Commit(a) => ApplyCommit(cfg, s, a)
    case Finish(a) => s.(attempts := s.attempts - {a})
    case ParseFailure(a) =>
      var m := s.attempts[a].message;
      s.(documents := WithStatus(s.documents, m.owner, m.document, Failed), attempts := s.attempts - {a})
    case TransientFailure(a) => Raised(cfg, s.(attempts := s.attempts - {a}), s.attempts[a].message)
    // The failure handler raised too: the message is gone and the document stays as it is.
    case GiveUp(a) => s.(attempts := s.attempts - {a})
    case Crash(a) =>
      s.(attempts := s.attempts - {a}, queue := s.queue + multiset{s.attempts[a].message})
    case LoseMessage(m) => s.(queue := s.queue - multiset{m})
    case Sweep(stuck) => s.(queue := s.queue + MessagesFor(s.documents, stuck))
    case UserRetry(d) =>
      s.(documents := s.documents[d := s.documents[d].(status := Pending)],
         outbox := s.outbox + [Event(DocumentUploaded, d, s.documents[d].owner, false)])
    case DeleteVectors(d) =>
      s.(points := PointsExcept(s.points, s.documents[d].owner, d), deleting := s.deleting + {d})
    case DeleteRow(d) =>
      s.(documents := s.documents - {d},
         rows := map id | id in s.rows && s.rows[id].document != d :: s.rows[id])
  }

  // ---------------------------------------------------------------- the runs

  /** Every step of a run is enabled where it is taken. */
  predicate Valid(cfg: Config, s: State, steps: seq<Step>)
    decreases |steps|
  {
    steps == [] || (Enabled(cfg, s, steps[0]) && Valid(cfg, Apply(cfg, s, steps[0]), steps[1..]))
  }

  function Run(cfg: Config, s: State, steps: seq<Step>): State
    requires Valid(cfg, s, steps)
    decreases |steps|
  {
    if steps == [] then s else Run(cfg, Apply(cfg, s, steps[0]), steps[1..])
  }

  predicate Busy(s: State, document: DocumentId) {
    exists a :: a in s.attempts && s.attempts[a].message.document == document
  }

  /** The deployment's assumption: no message is taken up while another attempt works on its document. */
  predicate OneAtATime(s: State, step: Step) {
    step.Deliver? || step.DeliverFailure? ==> !Busy(s, step.message.document)
  }

  predicate Exclusive(cfg: Config, s: State, steps: seq<Step>)
    requires Valid(cfg, s, steps)
    decreases |steps|
  {
    steps == [] || (OneAtATime(s, steps[0]) && Exclusive(cfg, Apply(cfg, s, steps[0]), steps[1..]))
  }

  /** Taking `steps` from `s` is possible, keeps the one-at-a-time rule, and ends in `s'`. */
  predicate Leads(cfg: Config, s: State, steps: seq<Step>, s': State) {
    Valid(cfg, s, steps) && Exclusive(cfg, s, steps) && Run(cfg, s, steps) == s'
  }

  lemma {:induction false} LeadsOn(cfg: Config, s: State, steps: seq<Step>, s': State, step: Step)
    requires Valid(cfg, s, steps) && Run(cfg, s, steps) == s'
    requires Enabled(cfg, s', step)
    ensures Valid(cfg, s, steps + [step]) && Run(cfg, s, steps + [step]) == Apply(cfg, s', step)
    ensures Exclusive(cfg, s, steps + [step]) <==> Exclusive(cfg, s, steps) && OneAtATime(s', step)
    decreases |steps|
  {
    hide Apply, Enabled, OneAtATime;
    var all := steps + [step];
    if steps == [] {
      assert all[1..] == [];
    } else {
      assert all[0] == steps[0] && all[1..] == steps[1..] + [step];
      LeadsOn(cfg, Apply(cfg, s, steps[0]), steps[1..], s', step);
    }
  }

  lemma {:induction false} LeadsThen(cfg: Config, s: State, first: seq<Step>, s': State, second: seq<Step>, s'': State)
    requires Leads(cfg, s, first, s') && Leads(cfg, s', second, s'')
    ensures Leads(cfg, s, first + second, s'')
    decreases |first|
  {
    hide Apply, Enabled, OneAtATime;
    var all := first + second;
    if first == [] {
      assert all == second;
    } else {
      assert all[0] == first[0] && all[1..] == first[1..] + second;
      LeadsThen(cfg, Apply(cfg, s, first[0]), first[1..], s', second, s'');
    }
  }

  // ----------------------------------------------------------- the agreement

  /** One attempt wrote everything both stores hold for the document. */
  ghost predicate WrittenBy(cfg: Config, s: State, d: DocumentId, attempt: nat)
    requires d in s.documents
  {
    var doc := s.documents[d];
    RowsFor(s.rows, doc.owner, d) == RowsBy(cfg, attempt, doc.owner, d, doc.original) &&
    PointsFor(s.points, doc.owner, d) == PointsBy(cfg, attempt, doc.owner, d, doc.original)
  }

  ghost predicate Agreed(cfg: Config, s: State, d: DocumentId)
    requires d in s.documents
  {
    exists attempt: nat :: WrittenBy(cfg, s, d, attempt)
  }

  /** Every indexed document nobody started to delete has its index entries in step with its rows. */
  ghost predicate IndexAgrees(cfg: Config, s: State) {
    forall d :: d in s.documents && s.documents[d].status == Indexed && d !in s.deleting ==> Agreed(cfg, s, d)
  }
}
