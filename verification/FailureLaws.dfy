/** When a document that is already indexed is marked failed after all, and a run in which it is. */
module FailureLaws {
  import opened Chunking
  import opened Ingestion
  import opened IngestionSafety
  import opened Shared

  /** The message is for this document and has no retry left. */
  predicate LastTryFor(cfg: Config, m: Message, doc: Document, d: DocumentId) {
    m.document == d && m.owner == doc.owner && cfg.maxRetries <= m.retries
  }

  /** A message for the document raises on its last try, before its claim or after. */
  predicate ExhaustsRetries(cfg: Config, s: State, step: Step, d: DocumentId)
    requires d in s.documents && Enabled(cfg, s, step)
  {
    match step
    case DeliverFailure(m) => LastTryFor(cfg, m, s.documents[d], d)
    case TransientFailure(a) => LastTryFor(cfg, s.attempts[a].message, s.documents[d], d)
    case _ => false
  }

  /** A step marks an indexed document failed exactly when it is the last try of a message for it that raises. */
  lemma IndexedFailsIff(cfg: Config, s: State, step: Step, d: DocumentId)
    requires Inv(cfg, s) && Enabled(cfg, s, step)
    requires d in s.documents && s.documents[d].status == Indexed
    ensures var s' := Apply(cfg, s, step);
            d in s'.documents && s'.documents[d].status == Failed <==> ExhaustsRetries(cfg, s, step, d)
  {
    hide FreshIds, AttemptsMatch, Apply, Enabled;
    match step
    case Commit(a) => CommitFails(cfg, s, a, d);
    case ParseFailure(a) => ParseFails(cfg, s, a, d);
    case Deliver(m) => RaiseFails(cfg, s, step, d);
    case DeliverFailure(m) => RaiseFails(cfg, s, step, d);
    case TransientFailure(a) => RaiseFails(cfg, s, step, d);
    case _ => OtherStepFails(cfg, s, step, d);
  }

  lemma CommitFails(cfg: Config, s: State, a: nat, d: DocumentId)
    requires Enabled(cfg, s, Commit(a)) && d in s.documents && s.documents[d].status == Indexed
    ensures d in Apply(cfg, s, Commit(a)).documents && Apply(cfg, s, Commit(a)).documents[d].status == Indexed
  {
    hide RowsBy, RowsExcept, PointsExcept, ChunksFor;
  }

  /** An attempt that has not committed never works on an indexed document. */
  lemma ParseFails(cfg: Config, s: State, a: nat, d: DocumentId)
    requires AttemptsMatch(s) && Enabled(cfg, s, ParseFailure(a))
    requires d in s.documents && s.documents[d].status == Indexed
    ensures d in Apply(cfg, s, ParseFailure(a)).documents
    ensures Apply(cfg, s, ParseFailure(a)).documents[d].status == Indexed
  {
    hide ChunksFor;
    assert s.attempts[a].phase == Claimed && Writing(s.attempts[a].phase);
  }

  lemma RaiseFails(cfg: Config, s: State, step: Step, d: DocumentId)
    requires Enabled(cfg, s, step) && (step.Deliver? || step.DeliverFailure? || step.TransientFailure?)
    requires d in s.documents && s.documents[d].status == Indexed
    ensures var s' := Apply(cfg, s, step);
            d in s'.documents && s'.documents[d].status == Failed <==> ExhaustsRetries(cfg, s, step, d)
  {
    hide Apply, Enabled, ApplyDeliver, Raised;
    match step
    case Deliver(m) =>
      DeliveryApplied(cfg, s, m);
      ClaimFails(s, m, d);
    case DeliverFailure(m) =>
      RaisedFails(cfg, s.(queue := s.queue - multiset{m}), m, d);
      UnclaimedApplied(cfg, s, m);
    case TransientFailure(a) =>
      AbortedApplied(cfg, s, a);
      RaisedFails(cfg, s.(attempts := s.attempts - {a}), s.attempts[a].message, d);
  }

  lemma DeliveryApplied(cfg: Config, s: State, m: Message)
    requires Enabled(cfg, s, Deliver(m))
    ensures Apply(cfg, s, Deliver(m)) == ApplyDeliver(s, m)
  {
  }

  lemma UnclaimedApplied(cfg: Config, s: State, m: Message)
    requires Enabled(cfg, s, DeliverFailure(m))
    ensures Apply(cfg, s, DeliverFailure(m)) == Raised(cfg, s.(queue := s.queue - multiset{m}), m)
  {
  }

  lemma AbortedApplied(cfg: Config, s: State, a: nat)
    requires Enabled(cfg, s, TransientFailure(a))
    ensures a in s.attempts
    ensures Apply(cfg, s, TransientFailure(a)) == Raised(cfg, s.(attempts := s.attempts - {a}), s.attempts[a].message)
  {
  }

  lemma ClaimFails(s: State, m: Message, d: DocumentId)
    requires d in s.documents && s.documents[d].status == Indexed
    ensures d in ApplyDeliver(s, m).documents && ApplyDeliver(s, m).documents[d].status == Indexed
  {
  }

  lemma RaisedFails(cfg: Config, s: State, m: Message, d: DocumentId)
    requires d in s.documents && s.documents[d].status == Indexed
    ensures d in Raised(cfg, s, m).documents
    ensures Raised(cfg, s, m).documents[d].status == Failed <==> LastTryFor(cfg, m, s.documents[d], d)
  {
  }

  lemma OtherStepFails(cfg: Config, s: State, step: Step, d: DocumentId)
    requires FreshIds(s) && Enabled(cfg, s, step) && !step.Commit? && !step.ParseFailure?
    requires !step.Deliver? && !step.DeliverFailure? && !step.TransientFailure?
    requires d in s.documents && s.documents[d].status == Indexed
    ensures var s' := Apply(cfg, s, step);
            d in s'.documents && s'.documents[d].status == Failed <==> ExhaustsRetries(cfg, s, step, d)
  {
    hide RowsBy, PointsBy, RowsExcept, PointsExcept, Dispatched, Stamped, Unprocessed, MessagesFor, ChunksFor,
         WithStatus, Raised, ApplyDeliver, ApplyCommit, Advance;
  }

  /** So it is in every state a run reaches with one attempt per document at a time. */
  lemma ReachableIndexedFailsIff(cfg: Config, history: seq<Step>, step: Step, d: DocumentId)
    requires Valid(cfg, EMPTY, history) && Exclusive(cfg, EMPTY, history)
    requires var s := Run(cfg, EMPTY, history);
             Enabled(cfg, s, step) && d in s.documents && s.documents[d].status == Indexed
    ensures var s := Run(cfg, EMPTY, history);
            var s' := Apply(cfg, s, step);
            d in s'.documents && s'.documents[d].status == Failed <==> ExhaustsRetries(cfg, s, step, d)
  {
    assert Inv(cfg, EMPTY);
    RunKeeps(cfg, EMPTY, history);
    IndexedFailsIff(cfg, Run(cfg, EMPTY, history), step, d);
  }

  // --------------------------------------------------------- a run that does

  /** A second message for the document waits in the queue while the first is worked off. */
  lemma IndexedTwiceQueued(cfg: Config, owner: UserId, original: Original) returns (steps: seq<Step>, s: State)
    requires 0 < cfg.relayBatch && original.Readable? && ValidSizes(cfg.chunkSize, cfg.overlap)
    ensures Leads(cfg, EMPTY, steps, s) && Message(0, owner, 0) in s.queue && s.attempts == map[]
    ensures 0 in s.documents && s.documents[0] == Document(owner, original, Indexed)
  {
    hide ChunksFor, RowsBy, PointsBy, RowsExcept, PointsExcept, ApplyRelay, Valid, Run, Exclusive;
    steps, s := WrittenTwiceQueued(cfg, owner, original);
    steps, s := Take(cfg, steps, s, Commit(0));
    steps, s := Take(cfg, steps, s, Finish(0));
  }

  lemma WrittenTwiceQueued(cfg: Config, owner: UserId, original: Original) returns (steps: seq<Step>, s: State)
    requires 0 < cfg.relayBatch && original.Readable? && ValidSizes(cfg.chunkSize, cfg.overlap)
    ensures Leads(cfg, EMPTY, steps, s) && Message(0, owner, 0) in s.queue
    ensures s.attempts == map[0 := Attempt(Message(0, owner, 0), original, Upserted)]
    ensures s.documents == map[0 := Document(owner, original, Processing)]
  {
    hide ChunksFor, PointsBy, PointsExcept, Valid, Run, Exclusive;
    steps, s := ClaimedTwiceQueued(cfg, owner, original);
    steps, s := Take(cfg, steps, s, Embed(0));
    steps, s := Take(cfg, steps, s, ClearVectors(0));
    steps, s := Take(cfg, steps, s, UpsertVectors(0));
  }

  lemma ClaimedTwiceQueued(cfg: Config, owner: UserId, original: Original) returns (steps: seq<Step>, s: State)
    requires 0 < cfg.relayBatch
    ensures Leads(cfg, EMPTY, steps, s) && Message(0, owner, 0) in s.queue
    ensures s.attempts == map[0 := Attempt(Message(0, owner, 0), original, Claimed)]
    ensures s.documents == map[0 := Document(owner, original, Processing)]
  {
    hide ChunksFor, RowsExcept, PointsExcept, ApplyRelay, Valid, Run, Exclusive;
    var m := Message(0, owner, 0);
    steps, s := UploadReachesQueue(cfg, owner, original);
    steps, s := Take(cfg, steps, s, Sweep({0}));
    assert (set d | d in {0} :: Message(d, owner, 0)) == {m};
    assert s.queue == multiset{m, m};
    steps, s := Take(cfg, steps, s, Deliver(m));
  }

  predicate OnlyFailedDeliveries(steps: seq<Step>) {
    forall i :: 0 <= i < |steps| ==> steps[i].DeliverFailure?
  }

  /** A message whose claim keeps raising uses up its retries and marks the document failed. */
  lemma {:induction false} FailuresExhaust(cfg: Config, s: State, m: Message) returns (steps: seq<Step>, s': State)
    requires m in s.queue && Found(s.documents, m.owner, m.document) && s.attempts == map[]
    ensures Leads(cfg, s, steps, s') && OnlyFailedDeliveries(steps)
    ensures s'.documents == WithStatus(s.documents, m.owner, m.document, Failed)
    decreases if m.retries < cfg.maxRetries then cfg.maxRetries - m.retries else 0
  {
    hide Valid, Run, Exclusive;
    var next := Apply(cfg, s, DeliverFailure(m));
    OneStep(cfg, s, DeliverFailure(m));
    if m.retries < cfg.maxRetries {
      var rest;
      rest, s' := FailuresExhaust(cfg, next, m.(retries := m.retries + 1));
      steps := [DeliverFailure(m)] + rest;
      LeadsThen(cfg, s, [DeliverFailure(m)], next, rest, s');
    } else {
      steps, s' := [DeliverFailure(m)], next;
    }
  }

  lemma OneStep(cfg: Config, s: State, step: Step)
    requires Enabled(cfg, s, step) && OneAtATime(s, step)
    ensures Leads(cfg, s, [step], Apply(cfg, s, step))
  {
    LeadsOn(cfg, s, [], s, step);
    assert [] + [step] == [step];
  }

  /** For every readable original: an exclusive run indexes it, and then failing deliveries alone mark it failed. */
  lemma IndexedMarkedFailed(cfg: Config, owner: UserId, original: Original)
    returns (before: seq<Step>, indexed: State, after: seq<Step>, failed: State)
    requires 0 < cfg.relayBatch && original.Readable? && ValidSizes(cfg.chunkSize, cfg.overlap)
    ensures Leads(cfg, EMPTY, before, indexed) && Leads(cfg, EMPTY, before + after, failed)
    ensures Leads(cfg, indexed, after, failed) && OnlyFailedDeliveries(after)
    ensures 0 in indexed.documents && indexed.documents[0] == Document(owner, original, Indexed)
    ensures 0 in failed.documents && failed.documents[0] == Document(owner, original, Failed)
  {
    hide Leads;
    before, indexed := IndexedTwiceQueued(cfg, owner, original);
    after, failed := FailuresExhaust(cfg, indexed, Message(0, owner, 0));
    LeadsThen(cfg, EMPTY, before, indexed, after, failed);
  }
}
