/** What each step of the ingestion protocol does to statuses, the outbox and the queue, and what a delete leaves. */
module StepLaws {
  import opened Ingestion
  import opened Shared

  // ----------------------------------------------------------------- statuses

  /** The message names this document and its owner. */
  predicate IsFor(m: Message, s: State, d: DocumentId)
    requires d in s.documents
  {
    m.document == d && m.owner == s.documents[d].owner
  }

  /** The step takes up a message for `d`, which is not indexed yet. */
  predicate Claims(s: State, step: Step, d: DocumentId)
    requires d in s.documents
  {
    step.Deliver? && IsFor(step.message, s, d) && s.documents[d].status != Indexed
  }

  predicate Completes(s: State, step: Step, d: DocumentId)
    requires d in s.documents
  {
    step.Commit? && step.attempt in s.attempts && IsFor(s.attempts[step.attempt].message, s, d)
  }

  /** A parse error fails `d` at once; any other error only when its message has used up its retries. */
  predicate Fails(cfg: Config, s: State, step: Step, d: DocumentId)
    requires d in s.documents
  {
    (step.ParseFailure? && step.attempt in s.attempts && IsFor(s.attempts[step.attempt].message, s, d)) ||
    (step.TransientFailure? && step.attempt in s.attempts && IsFor(s.attempts[step.attempt].message, s, d) &&
     s.attempts[step.attempt].message.retries >= cfg.maxRetries) ||
    (step.DeliverFailure? && IsFor(step.message, s, d) && step.message.retries >= cfg.maxRetries)
  }

  /** What a document is after a step that does not remove it. */
  function Moved(cfg: Config, s: State, step: Step, d: DocumentId): Document
    requires d in s.documents
  {
    s.documents[d].(status :=
      if Claims(s, step, d) then Processing
      else if Completes(s, step, d) then Indexed
      else if Fails(cfg, s, step, d) then Failed
      else if step == UserRetry(d) then Pending
      else s.documents[d].status)
  }

  ghost predicate MovesOnly(cfg: Config, s: State, step: Step, d: DocumentId, s': State)
    requires d in s.documents
  {
    if step == DeleteRow(d) then d !in s'.documents
    else d in s'.documents && s'.documents[d] == Moved(cfg, s, step, d)
  }

  /** The status, and nothing else of a document, moves at exactly these steps; only its own delete removes it. */
  lemma DocumentAfter(cfg: Config, s: State, step: Step, d: DocumentId)
    requires d in s.documents && d < s.nextDocument && Enabled(cfg, s, step)
    ensures MovesOnly(cfg, s, step, d, Apply(cfg, s, step))
  {
    hide MovesOnly, Apply, Enabled;
    match step
    case Deliver(m) => DeliverAfter(cfg, s, m, d);
    case Commit(a) => CommitAfter(cfg, s, a, d);
    case ParseFailure(a) => FailureAfter(cfg, s, step, d);
    case DeliverFailure(m) => FailureAfter(cfg, s, step, d);
    case TransientFailure(a) => FailureAfter(cfg, s, step, d);
    case _ => OtherAfter(cfg, s, step, d);
  }

  lemma DeliverAfter(cfg: Config, s: State, m: Message, d: DocumentId)
    requires d in s.documents && Enabled(cfg, s, Deliver(m))
    ensures MovesOnly(cfg, s, Deliver(m), d, Apply(cfg, s, Deliver(m)))
  {
  }

  lemma CommitAfter(cfg: Config, s: State, a: nat, d: DocumentId)
    requires d in s.documents && Enabled(cfg, s, Commit(a))
    ensures MovesOnly(cfg, s, Commit(a), d, Apply(cfg, s, Commit(a)))
  {
    hide RowsBy, RowsExcept, PointsExcept, ChunksFor;
  }

  lemma FailureAfter(cfg: Config, s: State, step: Step, d: DocumentId)
    requires d in s.documents && Enabled(cfg, s, step)
    requires step.ParseFailure? || step.DeliverFailure? || step.TransientFailure?
    ensures MovesOnly(cfg, s, step, d, Apply(cfg, s, step))
  {
    hide Raised;
    match step
    case DeliverFailure(m) => RaisedAfter(cfg, s, s.(queue := s.queue - multiset{m}), m, d);
    case TransientFailure(a) => RaisedAfter(cfg, s, s.(attempts := s.attempts - {a}), s.attempts[a].message, d);
    case _ =>
  }

  lemma OtherAfter(cfg: Config, s: State, step: Step, d: DocumentId)
    requires d in s.documents && d < s.nextDocument && Enabled(cfg, s, step)
    requires !step.Deliver? && !step.Commit? && !step.ParseFailure? && !step.DeliverFailure? && !step.TransientFailure?
    ensures MovesOnly(cfg, s, step, d, Apply(cfg, s, step))
  {
    hide RowsBy, PointsBy, RowsExcept, PointsExcept, Dispatched, Stamped, Unprocessed, MessagesFor, ChunksFor;
  }

  lemma RaisedAfter(cfg: Config, s: State, rest: State, m: Message, d: DocumentId)
    requires d in s.documents && rest.documents == s.documents
    ensures var s' := Raised(cfg, rest, m);
            d in s'.documents &&
            s'.documents[d] ==
            if IsFor(m, s, d) && cfg.maxRetries <= m.retries then s.documents[d].(status := Failed) else s.documents[d]
  {
  }

  /** A new document is pending, is its uploader's, and comes with its upload event. */
  lemma UploadAfter(cfg: Config, s: State, owner: UserId, original: Original)
    ensures var s' := Apply(cfg, s, Upload(owner, original));
            s.nextDocument in s'.documents && s'.documents[s.nextDocument] == Document(owner, original, Pending) &&
            s'.nextDocument == s.nextDocument + 1 &&
            s'.outbox == s.outbox + [Event(DocumentUploaded, s.nextDocument, owner, false)]
  {
  }

  // ------------------------------------------------------------------- outbox

  /** Every other step but a relay leaves the events, and adds one for an upload, a retry or a completed attempt. */
  lemma OutboxAfter(cfg: Config, s: State, step: Step)
    requires Enabled(cfg, s, step) && !step.Relay? && !step.Upload?
    ensures Apply(cfg, s, step).outbox ==
            s.outbox +
            if step.UserRetry? then [Event(DocumentUploaded, step.document, s.documents[step.document].owner, false)]
            else if step.Commit? && Found(s.documents, s.attempts[step.attempt].message.owner,
                                          s.attempts[step.attempt].message.document)
            then
              var m := s.attempts[step.attempt].message;
              [Event(DocumentIndexed, m.document, m.owner, false)]
            else []
  {
    hide RowsBy, PointsBy, RowsExcept, PointsExcept, Dispatched, Stamped, Unprocessed, MessagesFor, ChunksFor,
         WithStatus;
  }

  /** A relay stamps its batch and changes nothing else of any event. */
  lemma RelayStamps(cfg: Config, s: State, i: nat)
    requires i < |s.outbox|
    ensures var s', event := Apply(cfg, s, Relay), s.outbox[i];
            |s'.outbox| == |s.outbox| &&
            s'.outbox[i] == Event(event.kind, event.document, event.owner,
                                  event.processed || i in Unprocessed(s.outbox, cfg.relayBatch))
  {
  }

  // -------------------------------------------------------------------- queue

  /** The events of a batch that announce an upload of this document by this owner. */
  function Announcing(outbox: seq<Event>, batch: seq<nat>, document: DocumentId, owner: UserId): set<nat> {
    set k | 0 <= k < |batch| && batch[k] < |outbox| && Announces(outbox[batch[k]], document, owner)
  }

  predicate Announces(event: Event, document: DocumentId, owner: UserId) {
    event.kind == DocumentUploaded && event.document == document && event.owner == owner
  }

  lemma {:induction false} DispatchedCounts(outbox: seq<Event>, batch: seq<nat>, m: Message)
    requires forall k :: 0 <= k < |batch| ==> batch[k] < |outbox|
    ensures Dispatched(outbox, batch)[m] ==
            if m.retries == 0 then |Announcing(outbox, batch, m.document, m.owner)| else 0
  {
    if batch == [] {
      assert Announcing(outbox, batch, m.document, m.owner) == {};
    } else {
      var n := |batch| - 1;
      DispatchedCounts(outbox, batch[..n], m);
      OneMoreAnnounced(outbox, batch, m.document, m.owner);
      hide Announcing;
      var event := outbox[batch[n]];
      assert Dispatched(outbox, batch) ==
             Dispatched(outbox, batch[..n]) +
             if event.kind == DocumentUploaded then multiset{Message(event.document, event.owner, 0)} else multiset{};
    }
  }

  lemma OneMoreAnnounced(outbox: seq<Event>, batch: seq<nat>, document: DocumentId, owner: UserId)
    requires batch != [] && forall k :: 0 <= k < |batch| ==> batch[k] < |outbox|
    ensures var n := |batch| - 1;
            var event := outbox[batch[n]];
            |Announcing(outbox, batch, document, owner)| ==
            |Announcing(outbox, batch[..n], document, owner)| +
            if Announces(event, document, owner) then 1 else 0
  {
    hide Announces;
    var n := |batch| - 1;
    var event, before := outbox[batch[n]], Announcing(outbox, batch[..n], document, owner);
    var more := if Announces(event, document, owner) then {n} else {};
    assert forall k :: 0 <= k < n ==> batch[..n][k] == batch[k];
    assert Announcing(outbox, batch, document, owner) == before + more;
  }

  /** One fresh message for every upload event of the batch, or of the part dispatched before a crash. */
  lemma RelayQueues(cfg: Config, s: State, step: Step, m: Message)
    requires Enabled(cfg, s, step) && (step.Relay? || step.RelayCrash?)
    ensures var batch := Unprocessed(s.outbox, cfg.relayBatch);
            var taken := if step.Relay? then batch else batch[..step.dispatched];
            Apply(cfg, s, step).queue[m] ==
            s.queue[m] + if m.retries == 0 then |Announcing(s.outbox, taken, m.document, m.owner)| else 0
  {
    hide Unprocessed, Dispatched, Announcing;
    var batch := Unprocessed(s.outbox, cfg.relayBatch);
    DispatchedCounts(s.outbox, if step.Relay? then batch else batch[..step.dispatched], m);
  }

  /** How many copies of `m` a sweep adds: one, without retries, for a swept document's owner. */
  lemma SweepQueues(cfg: Config, s: State, stuck: set<DocumentId>, m: Message)
    requires Enabled(cfg, s, Sweep(stuck))
    ensures Apply(cfg, s, Sweep(stuck)).queue[m] ==
            s.queue[m] +
            if m.document in stuck && m.owner == s.documents[m.document].owner && m.retries == 0 then 1 else 0
  {
    var messages := set d | d in stuck :: Message(d, s.documents[d].owner, 0);
    assert m in messages <==> m.document in stuck && m == Message(m.document, s.documents[m.document].owner, 0);
  }

  /** How many copies of `m` a step takes off the queue, and how many it puts on. */
  predicate Takes(step: Step, m: Message) {
    (step.Deliver? || step.DeliverFailure? || step.LoseMessage?) && step.message == m
  }

  predicate Puts(cfg: Config, s: State, step: Step, m: Message)
    requires Enabled(cfg, s, step)
  {
    (step.Crash? && s.attempts[step.attempt].message == m) ||
    (step.DeliverFailure? && RetryIs(cfg, step.message, m)) ||
    (step.TransientFailure? && RetryIs(cfg, s.attempts[step.attempt].message, m))
  }

  /** What the other steps do to the queue: a delivery takes its message, a failure may put it back once more tried. */
  lemma QueueAfter(cfg: Config, s: State, step: Step, m: Message)
    requires Enabled(cfg, s, step) && !step.Relay? && !step.RelayCrash? && !step.Sweep?
    ensures Apply(cfg, s, step).queue[m] ==
            s.queue[m] - (if Takes(step, m) then 1 else 0) + (if Puts(cfg, s, step, m) then 1 else 0)
  {
    hide Apply, Enabled, Takes, Puts;
    if step.DeliverFailure? || step.TransientFailure? {
      FailureQueue(cfg, s, step, m);
    } else {
      OtherQueue(cfg, s, step, m);
    }
  }

  lemma FailureQueue(cfg: Config, s: State, step: Step, m: Message)
    requires Enabled(cfg, s, step) && (step.DeliverFailure? || step.TransientFailure?)
    ensures Apply(cfg, s, step).queue[m] ==
            s.queue[m] - (if Takes(step, m) then 1 else 0) + (if Puts(cfg, s, step, m) then 1 else 0)
  {
    hide Raised, RetryIs;
    match step
    case DeliverFailure(x) => RaisedQueue(cfg, s.(queue := s.queue - multiset{x}), x, m);
    case TransientFailure(a) => RaisedQueue(cfg, s.(attempts := s.attempts - {a}), s.attempts[a].message, m);
  }

  lemma OtherQueue(cfg: Config, s: State, step: Step, m: Message)
    requires Enabled(cfg, s, step) && !step.Relay? && !step.RelayCrash? && !step.Sweep?
    requires !step.DeliverFailure? && !step.TransientFailure?
    ensures Apply(cfg, s, step).queue[m] ==
            s.queue[m] - (if Takes(step, m) then 1 else 0) + (if Puts(cfg, s, step, m) then 1 else 0)
  {
    hide RowsBy, PointsBy, RowsExcept, PointsExcept, ChunksFor, WithStatus;
  }

  lemma RaisedQueue(cfg: Config, rest: State, tried: Message, m: Message)
    ensures Raised(cfg, rest, tried).queue[m] == rest.queue[m] + if RetryIs(cfg, tried, m) then 1 else 0
  {
  }

  /** The next try of a message with retries left: the same document and owner, one retry more. */
  predicate RetryIs(cfg: Config, tried: Message, m: Message) {
    tried.retries < cfg.maxRetries && m.document == tried.document && m.owner == tried.owner &&
    m.retries == tried.retries + 1
  }

  // ------------------------------------------------------------------ deletes

  /** After the delete of its row no row of the document is left, and every other row is untouched. */
  lemma NoRowLeft(cfg: Config, s: State, d: DocumentId, id: ChunkId)
    requires Enabled(cfg, s, DeleteRow(d))
    ensures var s' := Apply(cfg, s, DeleteRow(d));
            (id in s'.rows <==> id in s.rows && s.rows[id].document != d) &&
            (id in s'.rows ==> s'.rows[id] == s.rows[id])
  {
  }

  /** A delete's first step leaves no point of the document's owner for it, and every other point untouched. */
  lemma NoPointLeft(cfg: Config, s: State, d: DocumentId, id: ChunkId)
    requires Enabled(cfg, s, DeleteVectors(d))
    ensures var s', owner := Apply(cfg, s, DeleteVectors(d)), s.documents[d].owner;
            (id in s'.points <==>
              id in s.points && !(s.points[id].payload.document == d && s.points[id].payload.owner == owner)) &&
            (id in s'.points ==> s'.points[id] == s.points[id])
  {
  }

  /** Taking up a message claims with the document's own bytes, under a new attempt's number. */
  lemma ClaimAfter(cfg: Config, s: State, m: Message)
    requires Enabled(cfg, s, Deliver(m))
    ensures var s' := Apply(cfg, s, Deliver(m));
            if m.document in s.documents && Claims(s, Deliver(m), m.document) then
              s'.attempts == s.attempts[s.nextAttempt := Attempt(m, s.documents[m.document].original, Claimed)] &&
              s'.nextAttempt == s.nextAttempt + 1
            else s'.attempts == s.attempts && s'.nextAttempt == s.nextAttempt
  {
  }
}
