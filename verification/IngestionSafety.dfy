/** Over every run with one attempt per document at a time, the vector index agrees with the chunk table. */
module IngestionSafety {
  import opened Chunking
  import opened Ingestion
  import opened Shared

  // ------------------------------------------------------------- invariants

  predicate Writing(phase: Phase) {
    !phase.Committed?
  }

  /** Ids are minted from counters, so a new one is never in use. */
  ghost predicate FreshIds(s: State) {
    (forall a :: a in s.attempts ==> a < s.nextAttempt && s.attempts[a].message.document < s.nextDocument) &&
    (forall id :: id in s.rows ==> id.attempt < s.nextAttempt) &&
    (forall id :: id in s.points ==> id.attempt < s.nextAttempt) &&
    (forall d :: d in s.documents ==> d < s.nextDocument)
  }

  /** An attempt works with its document's own bytes and owner, and until it commits the document is not indexed. */
  ghost predicate AttemptsMatch(s: State) {
    forall a :: a in s.attempts ==>
      var Attempt(m, original, phase) := s.attempts[a];
      m.document in s.documents ==>
        var doc := s.documents[m.document];
        doc.owner == m.owner && doc.original == original && (Writing(phase) ==> doc.status != Indexed)
  }

  ghost predicate OneEach(s: State) {
    forall a, b :: a in s.attempts && b in s.attempts && a != b ==>
      s.attempts[a].message.document != s.attempts[b].message.document
  }

  /** Nothing carries an attempt's ids before that attempt writes it. */
  ghost predicate Unwritten(s: State) {
    (forall a, id :: a in s.attempts && id in s.points && s.attempts[a].phase in {Claimed, Embedded, Cleared} ==>
      id.attempt != a) &&
    (forall a, id :: a in s.attempts && id in s.rows && Writing(s.attempts[a].phase) ==> id.attempt != a)
  }

  /** After the clear the index holds nothing for the document; from upsert to commit, exactly this attempt's points. */
  ghost predicate PointsExpected(cfg: Config, s: State, a: nat)
    requires a in s.attempts
  {
    var Attempt(m, original, phase) := s.attempts[a];
    var held := PointsFor(s.points, m.owner, m.document);
    (phase == Cleared ==> held == map[]) &&
    (phase == Upserted && m.document in s.documents && m.document !in s.deleting ==>
      held == PointsBy(cfg, a, m.owner, m.document, original))
  }

  ghost predicate PointsInPhase(cfg: Config, s: State) {
    forall a :: a in s.attempts ==> PointsExpected(cfg, s, a)
  }

  ghost predicate Inv(cfg: Config, s: State) {
    FreshIds(s) && AttemptsMatch(s) && OneEach(s) && Unwritten(s) && PointsInPhase(cfg, s) && IndexAgrees(cfg, s)
  }

  // ------------------------------------------------------ scoped store facts

  /** Deleting one document's points leaves every other document's points alone, and its own none. */
  lemma PointsExceptFor(points: map<ChunkId, Point>, o: UserId, d: DocumentId, o': UserId, d': DocumentId)
    ensures PointsFor(PointsExcept(points, o, d), o', d') ==
            if o == o' && d == d' then map[] else PointsFor(points, o', d')
    ensures PointsExcept(points, o, d).Keys <= points.Keys
  {
  }

  lemma PointsAddedFor(points: map<ChunkId, Point>, added: map<ChunkId, Point>, o: UserId, d: DocumentId,
                       o': UserId, d': DocumentId)
    requires points.Keys !! added.Keys
    requires forall id :: id in added ==> added[id].payload.owner == o && added[id].payload.document == d
    ensures PointsFor(points + added, o', d') ==
            if o == o' && d == d' then PointsFor(points, o', d') + added else PointsFor(points, o', d')
  {
  }

  lemma RowsReplacedFor(rows: map<ChunkId, ChunkRow>, added: map<ChunkId, ChunkRow>, o: UserId, d: DocumentId,
                        o': UserId, d': DocumentId)
    requires rows.Keys !! added.Keys
    requires forall id :: id in added ==> added[id].owner == o && added[id].document == d
    ensures RowsFor(RowsExcept(rows, o, d) + added, o', d') ==
            if o == o' && d == d' then added else RowsFor(rows, o', d')
  {
  }

  /** A document whose entry and whose two views are unchanged stays in agreement. */
  lemma AgreementFramed(cfg: Config, s: State, s': State, d: DocumentId)
    requires d in s.documents && d in s'.documents
    requires s.documents[d].owner == s'.documents[d].owner && s.documents[d].original == s'.documents[d].original
    requires RowsFor(s.rows, s.documents[d].owner, d) == RowsFor(s'.rows, s.documents[d].owner, d)
    requires PointsFor(s.points, s.documents[d].owner, d) == PointsFor(s'.points, s.documents[d].owner, d)
    requires Agreed(cfg, s, d)
    ensures Agreed(cfg, s', d)
  {
    var attempt: nat :| WrittenBy(cfg, s, d, attempt);
    assert WrittenBy(cfg, s', d, attempt);
  }

  // ---------------------------------------------------------- step by step

  /** Steps that touch neither store and no document. */
  lemma QuietStepKeeps(cfg: Config, s: State, s': State)
    requires Inv(cfg, s)
    requires s' == s.(outbox := s'.outbox, sent := s'.sent, queue := s'.queue, attempts := s'.attempts)
    requires s'.attempts.Keys <= s.attempts.Keys
    requires forall a :: a in s'.attempts ==>
               s'.attempts[a] == s.attempts[a] ||
               (s.attempts[a].phase == Claimed && s'.attempts[a] == s.attempts[a].(phase := Embedded))
    ensures Inv(cfg, s')
  {
    hide RowsBy, PointsBy, RowsFor, PointsFor;
    forall d | d in s'.documents && s'.documents[d].status == Indexed && d !in s'.deleting
      ensures Agreed(cfg, s', d)
    {
      AgreementFramed(cfg, s, s', d);
    }
    forall a | a in s'.attempts
      ensures PointsExpected(cfg, s', a)
    {
      assert PointsExpected(cfg, s, a);
    }
  }

  /** Steps that only move one document to a status other than indexed. */
  lemma StatusStepKeeps(cfg: Config, s: State, s': State, d: DocumentId)
    requires Inv(cfg, s)
    requires s' == s.(outbox := s'.outbox, queue := s'.queue, documents := s'.documents, attempts := s'.attempts)
    requires s'.attempts.Keys <= s.attempts.Keys && forall a :: a in s'.attempts ==> s'.attempts[a] == s.attempts[a]
    requires s'.documents.Keys == s.documents.Keys
    requires forall e :: e in s.documents ==>
               s'.documents[e].owner == s.documents[e].owner && s'.documents[e].original == s.documents[e].original &&
               (e != d ==> s'.documents[e] == s.documents[e])
    requires d in s'.documents ==> s'.documents[d].status != Indexed
    ensures Inv(cfg, s')
  {
    hide RowsBy, PointsBy, RowsFor, PointsFor;
    forall e | e in s'.documents && s'.documents[e].status == Indexed && e !in s'.deleting
      ensures Agreed(cfg, s', e)
    {
      AgreementFramed(cfg, s, s', e);
    }
  }

  lemma UploadKeeps(cfg: Config, s: State, owner: UserId, original: Original)
    requires Inv(cfg, s)
    ensures Inv(cfg, Apply(cfg, s, Upload(owner, original)))
  {
    hide RowsBy, PointsBy, RowsFor, PointsFor;
    var s' := Apply(cfg, s, Upload(owner, original));
    forall d | d in s'.documents && s'.documents[d].status == Indexed && d !in s'.deleting
      ensures Agreed(cfg, s', d)
    {
      AgreementFramed(cfg, s, s', d);
    }
  }

  lemma DeliverKeeps(cfg: Config, s: State, m: Message)
    requires Inv(cfg, s) && m in s.queue && !Busy(s, m.document)
    ensures Inv(cfg, ApplyDeliver(s, m))
  {
    hide RowsBy, PointsBy, RowsFor, PointsFor;
    var s' := ApplyDeliver(s, m);
    if !Found(s.documents, m.owner, m.document) || s.documents[m.document].status == Indexed {
      QuietStepKeeps(cfg, s, s');
    } else {
      ClaimKeeps(cfg, s, s', m);
    }
  }

  lemma ClaimKeeps(cfg: Config, s: State, s': State, m: Message)
    requires Inv(cfg, s) && !Busy(s, m.document)
    requires m.document in s.documents && s.documents[m.document].owner == m.owner
    requires s.documents[m.document].status != Indexed
    requires var doc := s.documents[m.document];
             s' == s.(queue := s'.queue,
                      documents := s.documents[m.document := doc.(status := Processing)],
                      attempts := s.attempts[s.nextAttempt := Attempt(m, doc.original, Claimed)],
                      nextAttempt := s.nextAttempt + 1)
    ensures Inv(cfg, s')
  {
    hide RowsBy, PointsBy, RowsFor, PointsFor;
    ClaimKeepsIds(cfg, s, s', m);
    forall a | a in s'.attempts
      ensures PointsExpected(cfg, s', a)
    {
      assert a != s.nextAttempt ==> PointsExpected(cfg, s, a);
    }
    forall d | d in s'.documents && s'.documents[d].status == Indexed && d !in s'.deleting
      ensures Agreed(cfg, s', d)
    {
      AgreementFramed(cfg, s, s', d);
    }
  }

  lemma ClaimKeepsIds(cfg: Config, s: State, s': State, m: Message)
    requires FreshIds(s) && AttemptsMatch(s) && OneEach(s) && Unwritten(s) && !Busy(s, m.document)
    requires m.document in s.documents && s.documents[m.document].owner == m.owner
    requires var doc := s.documents[m.document];
             s' == s.(queue := s'.queue,
                      documents := s.documents[m.document := doc.(status := Processing)],
                      attempts := s.attempts[s.nextAttempt := Attempt(m, doc.original, Claimed)],
                      nextAttempt := s.nextAttempt + 1)
    ensures FreshIds(s') && AttemptsMatch(s') && OneEach(s') && Unwritten(s')
    ensures s.nextAttempt !in s.attempts
  {
    assert forall a :: a in s.attempts ==> s.attempts[a].message.document != m.document;
    assert forall a :: a in s'.attempts ==> a == s.nextAttempt || (a in s.attempts && s'.attempts[a] == s.attempts[a]);
  }

  /** What every pair of views sees after an index step on document `d`, for the other documents. */
  ghost predicate OthersSee(s: State, s': State, d: DocumentId) {
    forall o, e :: e != d ==>
      PointsFor(s'.points, o, e) == PointsFor(s.points, o, e) && RowsFor(s'.rows, o, e) == RowsFor(s.rows, o, e)
  }

  /** A step of attempt `a` that other documents do not see keeps what they rely on. */
  lemma OthersKeep(cfg: Config, s: State, s': State, a: nat)
    requires Inv(cfg, s) && a in s.attempts
    requires var d := s.attempts[a].message.document;
             OthersSee(s, s', d) && s'.deleting == s.deleting &&
             forall e :: e != d ==> (e in s'.documents <==> e in s.documents) &&
                                    (e in s.documents ==> s'.documents[e] == s.documents[e])
    requires s'.attempts.Keys <= s.attempts.Keys
    requires forall b :: b in s'.attempts && b != a ==> s'.attempts[b] == s.attempts[b]
    ensures forall b :: b != a && b in s'.attempts ==> PointsExpected(cfg, s', b)
    ensures forall e ::
              e != s.attempts[a].message.document && e in s'.documents &&
              s'.documents[e].status == Indexed && e !in s'.deleting
              ==> Agreed(cfg, s', e)
  {
    hide RowsBy, PointsBy, RowsFor, PointsFor;
    forall e | e != s.attempts[a].message.document && e in s'.documents &&
               s'.documents[e].status == Indexed && e !in s'.deleting
      ensures Agreed(cfg, s', e)
    {
      AgreementFramed(cfg, s, s', e);
    }
  }

  lemma ClearKeeps(cfg: Config, s: State, a: nat)
    requires Inv(cfg, s) && InPhase(s, a, Embedded)
    ensures Inv(cfg, Apply(cfg, s, ClearVectors(a)))
  {
    hide RowsBy, PointsBy, RowsFor, PointsFor, PointsExcept, Inv;
    var s' := Apply(cfg, s, ClearVectors(a));
    var m := s.attempts[a].message;
    forall o, e
      ensures PointsFor(s'.points, o, e) ==
              if m.owner == o && m.document == e then map[] else PointsFor(s.points, o, e)
    {
      PointsExceptFor(s.points, m.owner, m.document, o, e);
    }
    PointsExceptFor(s.points, m.owner, m.document, m.owner, m.document);
    ClearViews(cfg, s, s', a);
  }

  lemma ClearViews(cfg: Config, s: State, s': State, a: nat)
    requires Inv(cfg, s) && InPhase(s, a, Embedded)
    requires s' == s.(points := s'.points, attempts := Advance(s, a, Cleared))
    requires forall id :: id in s'.points ==> id in s.points
    requires OthersSee(s, s', s.attempts[a].message.document)
    requires PointsExpected(cfg, s', a)
    ensures Inv(cfg, s')
  {
    hide RowsBy, PointsBy, RowsFor, PointsFor;
    OthersKeep(cfg, s, s', a);
    assert Unwritten(s');
  }

  lemma PointsByShape(cfg: Config, a: nat, o: UserId, d: DocumentId, original: Original)
    ensures forall id :: id in PointsBy(cfg, a, o, d, original) ==>
              id.attempt == a && PointsBy(cfg, a, o, d, original)[id].payload.owner == o &&
              PointsBy(cfg, a, o, d, original)[id].payload.document == d
    ensures forall id :: id in RowsBy(cfg, a, o, d, original) ==>
              id.attempt == a && RowsBy(cfg, a, o, d, original)[id].owner == o &&
              RowsBy(cfg, a, o, d, original)[id].document == d
  {
    hide ChunksFor;
  }

  lemma UpsertKeeps(cfg: Config, s: State, a: nat)
    requires Inv(cfg, s) && InPhase(s, a, Cleared)
    ensures Inv(cfg, Apply(cfg, s, UpsertVectors(a)))
  {
    hide RowsBy, PointsBy, RowsFor, PointsFor;
    var Attempt(m, original, _) := s.attempts[a];
    var s' := Apply(cfg, s, UpsertVectors(a));
    var added := PointsBy(cfg, a, m.owner, m.document, original);
    PointsByShape(cfg, a, m.owner, m.document, original);
    forall o, e | e != m.document
      ensures PointsFor(s'.points, o, e) == PointsFor(s.points, o, e)
    {
      PointsAddedFor(s.points, added, m.owner, m.document, o, e);
    }
    PointsAddedFor(s.points, added, m.owner, m.document, m.owner, m.document);
    assert map[] + added == added;
    assert PointsExpected(cfg, s, a);
    UpsertViews(cfg, s, s', a, added);
  }

  lemma UpsertViews(cfg: Config, s: State, s': State, a: nat, added: map<ChunkId, Point>)
    requires Inv(cfg, s) && InPhase(s, a, Cleared)
    requires s' == s.(points := s.points + added, attempts := Advance(s, a, Upserted))
    requires forall id :: id in added ==> id.attempt == a
    requires OthersSee(s, s', s.attempts[a].message.document)
    requires PointsExpected(cfg, s', a)
    ensures Inv(cfg, s')
  {
    hide RowsBy, PointsBy, RowsFor, PointsFor, FreshIds, Unwritten, PointsExpected;
    OthersKeep(cfg, s, s', a);
    UpsertKeepsIds(cfg, s, s', a, added);
  }

  lemma UpsertKeepsIds(cfg: Config, s: State, s': State, a: nat, added: map<ChunkId, Point>)
    requires FreshIds(s) && Unwritten(s) && InPhase(s, a, Cleared)
    requires s' == s.(points := s.points + added, attempts := Advance(s, a, Upserted))
    requires forall id :: id in added ==> id.attempt == a
    ensures FreshIds(s') && Unwritten(s')
  {
  }

  /** The terminal transaction on a document that still exists. */
  lemma CommitKeeps(cfg: Config, s: State, a: nat)
    requires Inv(cfg, s) && InPhase(s, a, Upserted)
    requires Found(s.documents, s.attempts[a].message.owner, s.attempts[a].message.document)
    ensures Inv(cfg, ApplyCommit(cfg, s, a))
  {
    hide RowsBy, PointsBy, RowsFor, PointsFor, RowsExcept;
    var s' := ApplyCommit(cfg, s, a);
    var Attempt(m, original, _) := s.attempts[a];
    var d, added := m.document, RowsBy(cfg, a, m.owner, m.document, original);
    PointsByShape(cfg, a, m.owner, d, original);
    forall o, e
      ensures RowsFor(s'.rows, o, e) == if m.owner == o && d == e then added else RowsFor(s.rows, o, e)
    {
      RowsReplacedFor(s.rows, added, m.owner, d, o, e);
    }
    assert PointsExpected(cfg, s, a);
    assert d !in s'.deleting ==> WrittenBy(cfg, s', d, a);
    OthersKeep(cfg, s, s', a);
    CommitKeepsIds(cfg, s, a);
  }

  lemma CommitKeepsIds(cfg: Config, s: State, a: nat)
    requires Inv(cfg, s) && InPhase(s, a, Upserted)
    requires Found(s.documents, s.attempts[a].message.owner, s.attempts[a].message.document)
    ensures var s' := ApplyCommit(cfg, s, a); FreshIds(s') && AttemptsMatch(s') && OneEach(s') && Unwritten(s')
  {
    hide RowsBy, PointsBy, RowsFor, PointsFor;
    var Attempt(m, original, _) := s.attempts[a];
    PointsByShape(cfg, a, m.owner, m.document, original);
  }

  /** The terminal transaction on a deleted document without chunks: it undoes its vectors. */
  lemma VoidCommitKeeps(cfg: Config, s: State, a: nat)
    requires Inv(cfg, s) && InPhase(s, a, Upserted)
    requires !Found(s.documents, s.attempts[a].message.owner, s.attempts[a].message.document)
    ensures Inv(cfg, ApplyCommit(cfg, s, a))
  {
    hide RowsBy, PointsBy, RowsFor, PointsFor;
    var s' := ApplyCommit(cfg, s, a);
    var m := s.attempts[a].message;
    forall o, e | e != m.document
      ensures PointsFor(s'.points, o, e) == PointsFor(s.points, o, e)
    {
      PointsExceptFor(s.points, m.owner, m.document, o, e);
    }
    OthersKeep(cfg, s, s', a);
  }

  lemma DeleteVectorsKeeps(cfg: Config, s: State, d: DocumentId)
    requires Inv(cfg, s) && d in s.documents
    ensures Inv(cfg, Apply(cfg, s, DeleteVectors(d)))
  {
    hide RowsBy, PointsBy, RowsFor, PointsFor;
    var s' := Apply(cfg, s, DeleteVectors(d));
    forall o, e
      ensures PointsFor(s'.points, o, e) == PointsFor(s.points, o, e) ||
              (e == d && PointsFor(s'.points, o, e) == map[])
    {
      PointsExceptFor(s.points, s.documents[d].owner, d, o, e);
    }
    forall a | a in s'.attempts
      ensures PointsExpected(cfg, s', a)
    {
      assert PointsExpected(cfg, s, a);
    }
    forall e | e in s'.documents && s'.documents[e].status == Indexed && e !in s'.deleting
      ensures Agreed(cfg, s', e)
    {
      AgreementFramed(cfg, s, s', e);
    }
  }

  lemma DeleteRowKeeps(cfg: Config, s: State, d: DocumentId)
    requires Inv(cfg, s) && d in s.documents && d in s.deleting
    ensures Inv(cfg, Apply(cfg, s, DeleteRow(d)))
  {
    hide RowsBy, PointsBy, PointsFor, RowsFor;
    var s' := Apply(cfg, s, DeleteRow(d));
    forall a | a in s'.attempts
      ensures PointsExpected(cfg, s', a)
    {
      assert PointsExpected(cfg, s, a);
    }
    forall e | e in s'.documents && s'.documents[e].status == Indexed && e !in s'.deleting
      ensures Agreed(cfg, s', e)
    {
      RowsLeft(s.rows, d, s.documents[e].owner, e);
      AgreementFramed(cfg, s, s', e);
    }
  }

  lemma RowsLeft(rows: map<ChunkId, ChunkRow>, gone: DocumentId, o: UserId, d: DocumentId)
    requires d != gone
    ensures RowsFor(map id | id in rows && rows[id].document != gone :: rows[id], o, d) == RowsFor(rows, o, d)
  {
  }

  // ------------------------------------------------------------ the theorem

  /** Every enabled step that respects the one-at-a-time rule keeps the invariant. */
  lemma StepKeeps(cfg: Config, s: State, step: Step)
    requires Inv(cfg, s) && Enabled(cfg, s, step) && OneAtATime(s, step)
    ensures Inv(cfg, Apply(cfg, s, step))
  {
    hide Inv, RowsBy, PointsBy, RowsFor, PointsFor, PointsExcept, RowsExcept, ApplyCommit, ApplyDeliver, ApplyRelay,
         WithStatus;
    match step
    case Upload(owner, original) => UploadKeeps(cfg, s, owner, original);
    case Deliver(m) => DeliverKeeps(cfg, s, m);
    case ClearVectors(a) => ClearKeeps(cfg, s, a);
    case UpsertVectors(a) => UpsertKeeps(cfg, s, a);
    case Commit(a) =>
      if Found(s.documents, s.attempts[a].message.owner, s.attempts[a].message.document) {
        CommitKeeps(cfg, s, a);
      } else {
        VoidCommitKeeps(cfg, s, a);
      }
    case ParseFailure(a) => FailKeeps(cfg, s, Apply(cfg, s, step), a);
    case TransientFailure(a) => RaisedKeeps(cfg, s, a);
    case DeliverFailure(m) => UnclaimedKeeps(cfg, s, m);
    case UserRetry(d) => RetryKeeps(cfg, s, d);
    case DeleteVectors(d) => DeleteVectorsKeeps(cfg, s, d);
    case DeleteRow(d) => DeleteRowKeeps(cfg, s, d);
    case _ => QuietKeeps(cfg, s, step);
  }

  lemma RaisedKeeps(cfg: Config, s: State, a: nat)
    requires Inv(cfg, s) && a in s.attempts
    ensures Inv(cfg, Apply(cfg, s, TransientFailure(a)))
  {
    hide Inv;
    var s' := Apply(cfg, s, TransientFailure(a));
    if s.attempts[a].message.retries < cfg.maxRetries {
      QuietStepKeeps(cfg, s, s');
    } else {
      FailKeeps(cfg, s, s', a);
    }
  }

  lemma UnclaimedKeeps(cfg: Config, s: State, m: Message)
    requires Inv(cfg, s) && m in s.queue && !Busy(s, m.document)
    ensures Inv(cfg, Apply(cfg, s, DeliverFailure(m)))
  {
    hide Inv;
    var s' := Apply(cfg, s, DeliverFailure(m));
    if Found(s.documents, m.owner, m.document) && m.retries >= cfg.maxRetries {
      StatusStepKeeps(cfg, s, s', m.document);
    } else {
      QuietStepKeeps(cfg, s, s');
    }
  }

  lemma QuietKeeps(cfg: Config, s: State, step: Step)
    requires Inv(cfg, s) && Enabled(cfg, s, step)
    requires step.Relay? || step.RelayCrash? || step.Embed? || step.Finish? || step.GiveUp? || step.Crash? ||
             step.LoseMessage? || step.Sweep?
    ensures Inv(cfg, Apply(cfg, s, step))
  {
    hide Inv, Dispatched, Stamped, Unprocessed, MessagesFor;
    QuietStepKeeps(cfg, s, Apply(cfg, s, step));
  }

  lemma FailKeeps(cfg: Config, s: State, s': State, a: nat)
    requires Inv(cfg, s) && a in s.attempts
    requires var m := s.attempts[a].message;
             s' == s.(documents := WithStatus(s.documents, m.owner, m.document, Failed), attempts := s.attempts - {a})
    ensures Inv(cfg, s')
  {
    var m := s.attempts[a].message;
    if Found(s.documents, m.owner, m.document) {
      StatusStepKeeps(cfg, s, s', m.document);
    } else {
      QuietStepKeeps(cfg, s, s');
    }
  }

  lemma RetryKeeps(cfg: Config, s: State, d: DocumentId)
    requires Inv(cfg, s) && d in s.documents
    ensures Inv(cfg, Apply(cfg, s, UserRetry(d)))
  {
    StatusStepKeeps(cfg, s, Apply(cfg, s, UserRetry(d)), d);
  }

  lemma {:induction false} RunKeeps(cfg: Config, s: State, steps: seq<Step>)
    requires Inv(cfg, s) && Valid(cfg, s, steps) && Exclusive(cfg, s, steps)
    ensures Inv(cfg, Run(cfg, s, steps))
    decreases |steps|
  {
    hide Inv, Apply, Enabled;
    if steps != [] {
      StepKeeps(cfg, s, steps[0]);
      RunKeeps(cfg, Apply(cfg, s, steps[0]), steps[1..]);
    }
  }

  /** In every reachable state, whatever failed, crashed, was lost or came twice, the index agrees with the rows. */
  lemma IndexAlwaysAgrees(cfg: Config, steps: seq<Step>)
    requires Valid(cfg, EMPTY, steps) && Exclusive(cfg, EMPTY, steps)
    ensures IndexAgrees(cfg, Run(cfg, EMPTY, steps))
  {
    assert Inv(cfg, EMPTY);
    RunKeeps(cfg, EMPTY, steps);
  }

  /** Without the one-at-a-time rule it fails: a second attempt clears what the first then commits, and dies. */
  lemma OverlapBreaksAgreement(cfg: Config, owner: UserId, original: Original) returns (steps: seq<Step>)
    requires 0 < cfg.relayBatch && ChunksFor(cfg, original) != []
    ensures Valid(cfg, EMPTY, steps) && !Exclusive(cfg, EMPTY, steps)
    ensures var s := Run(cfg, EMPTY, steps);
            0 in s.documents && s.documents[0].status == Indexed && 0 !in s.deleting && s.attempts == map[] &&
            RowsFor(s.rows, owner, 0) != map[] && PointsFor(s.points, owner, 0) == map[]
  {
    assert original.Readable? && ValidSizes(cfg.chunkSize, cfg.overlap);
    hide Apply, Enabled, RowsFor, PointsFor, RowsBy, PointsBy, ChunksFor;
    var s: State;
    steps, s := OverlapBegins(cfg, owner, original);
    steps, s := OverlapWrites(cfg, owner, original, steps, s);
    steps, s := OverlapLoses(cfg, owner, original, steps, s);
  }

  /** Document 0 is claimed and two attempts work on it, at the given phases. */
  ghost predicate TwoAttempts(s: State, owner: UserId, original: Original, first: Phase, second: Phase) {
    s.attempts.Keys == {0, 1} && s.deleting == {} && s.rows == map[] &&
    s.attempts[0] == Attempt(Message(0, owner, 0), original, first) &&
    s.attempts[1] == Attempt(Message(0, owner, 0), original, second) &&
    0 in s.documents && s.documents[0] == Document(owner, original, Processing)
  }

  /** `steps` runs from the start to `s` and broke the one-at-a-time rule. */
  ghost predicate Overlapped(cfg: Config, steps: seq<Step>, s: State) {
    Valid(cfg, EMPTY, steps) && Run(cfg, EMPTY, steps) == s && !Exclusive(cfg, EMPTY, steps)
  }

  /** A sweep hands the same document to a second attempt while the first is still working. */
  lemma OverlapBegins(cfg: Config, owner: UserId, original: Original) returns (steps: seq<Step>, s: State)
    requires 0 < cfg.relayBatch
    ensures Overlapped(cfg, steps, s) && TwoAttempts(s, owner, original, Claimed, Claimed)
  {
    hide ChunksFor, RowsExcept, PointsExcept, ApplyRelay, Valid, Run, Exclusive;
    var m := Message(0, owner, 0);
    steps, s := FirstClaim(cfg, owner, original);
    steps, s := Take(cfg, steps, s, Sweep({0}));
    assert (set d | d in {0} :: Message(d, owner, 0)) == {m};
    assert s.queue == multiset{m};
    assert Busy(s, 0) by { assert 0 in s.attempts; }
    steps, s := Take(cfg, steps, s, Deliver(m));
  }

  lemma FirstClaim(cfg: Config, owner: UserId, original: Original) returns (steps: seq<Step>, s: State)
    requires 0 < cfg.relayBatch
    ensures Leads(cfg, EMPTY, steps, s)
    ensures s == EMPTY.(documents := map[0 := Document(owner, original, Processing)],
                        attempts := map[0 := Attempt(Message(0, owner, 0), original, Claimed)],
                        outbox := s.outbox, sent := s.sent, nextDocument := 1, nextAttempt := 1)
  {
    hide ChunksFor, RowsExcept, PointsExcept, ApplyRelay, Valid, Run, Exclusive;
    steps, s := UploadReachesQueue(cfg, owner, original);
    steps, s := Take(cfg, steps, s, Deliver(Message(0, owner, 0)));
  }

  lemma UploadReachesQueue(cfg: Config, owner: UserId, original: Original) returns (steps: seq<Step>, s: State)
    requires 0 < cfg.relayBatch
    ensures Leads(cfg, EMPTY, steps, s)
    ensures s == EMPTY.(documents := map[0 := Document(owner, original, Pending)],
                        queue := multiset{Message(0, owner, 0)},
                        outbox := s.outbox, sent := s.sent, nextDocument := 1)
  {
    hide ApplyRelay, ChunksFor;
    steps, s := Take(cfg, [], EMPTY, Upload(owner, original));
    RelayOne(cfg, s, Event(DocumentUploaded, 0, owner, false));
    steps, s := Take(cfg, steps, s, Relay);
  }

  lemma RelayOne(cfg: Config, s: State, event: Event)
    requires 0 < cfg.relayBatch && s.outbox == [event] && !event.processed && event.kind == DocumentUploaded
    ensures var s' := ApplyRelay(cfg, s);
            s' == s.(outbox := s'.outbox, sent := s'.sent,
                     queue := s.queue + multiset{Message(event.document, event.owner, 0)})
  {
    assert s.outbox[..0] == [];
    assert Unprocessed(s.outbox, cfg.relayBatch) == [0] && [0][..0] == [];
    assert Dispatched(s.outbox, [0]) == multiset{Message(event.document, event.owner, 0)};
  }

  lemma OverlapWrites(cfg: Config, owner: UserId, original: Original, begun: seq<Step>, s0: State)
    returns (steps: seq<Step>, s: State)
    requires Overlapped(cfg, begun, s0) && TwoAttempts(s0, owner, original, Claimed, Claimed)
    requires original.Readable? && ValidSizes(cfg.chunkSize, cfg.overlap)
    ensures Overlapped(cfg, steps, s) && TwoAttempts(s, owner, original, Upserted, Embedded)
  {
    hide RowsBy, PointsBy, RowsFor, PointsFor, ChunksFor, PointsExcept, Valid, Run, Exclusive, OneAtATime;
    steps, s := Take(cfg, begun, s0, Embed(0));
    steps, s := Take(cfg, steps, s, Embed(1));
    steps, s := Take(cfg, steps, s, ClearVectors(0));
    steps, s := Take(cfg, steps, s, UpsertVectors(0));
  }

  /** The second attempt clears, the first commits, the second dies. */
  lemma OverlapLoses(cfg: Config, owner: UserId, original: Original, begun: seq<Step>, s0: State)
    returns (steps: seq<Step>, s: State)
    requires Overlapped(cfg, begun, s0) && TwoAttempts(s0, owner, original, Upserted, Embedded)
    requires ChunksFor(cfg, original) != []
    ensures Overlapped(cfg, steps, s)
    ensures 0 in s.documents && s.documents[0].status == Indexed && 0 !in s.deleting && s.attempts == map[] &&
            RowsFor(s.rows, owner, 0) != map[] && PointsFor(s.points, owner, 0) == map[]
  {
    hide RowsBy, PointsBy, RowsFor, PointsFor, ChunksFor, RowsExcept, PointsExcept, Valid, Run, Exclusive, OneAtATime;
    var rows := RowsBy(cfg, 0, owner, 0, original);
    PointsExceptFor(s0.points, owner, 0, owner, 0);
    PointsByShape(cfg, 0, owner, 0, original);
    RowsReplacedFor(map[], rows, owner, 0, owner, 0);
    RowsByNotEmpty(cfg, 0, owner, 0, original);
    steps, s := Take(cfg, begun, s0, ClearVectors(1));
    steps, s := Take(cfg, steps, s, Commit(0));
    steps, s := Take(cfg, steps, s, Finish(0));
    steps, s := Take(cfg, steps, s, Crash(1));
  }

  lemma RowsByNotEmpty(cfg: Config, a: nat, o: UserId, d: DocumentId, original: Original)
    requires ChunksFor(cfg, original) != []
    ensures RowsBy(cfg, a, o, d, original) != map[]
  {
    hide ChunksFor;
    assert ChunkId(a, 0) in Ids(a, |ChunksFor(cfg, original)|);
    assert ChunkId(a, 0) in RowsBy(cfg, a, o, d, original);
  }

  lemma Take(cfg: Config, steps: seq<Step>, s: State, step: Step) returns (steps': seq<Step>, s': State)
    requires Valid(cfg, EMPTY, steps) && Run(cfg, EMPTY, steps) == s
    requires Enabled(cfg, s, step)
    ensures Valid(cfg, EMPTY, steps') && Run(cfg, EMPTY, steps') == s' == Apply(cfg, s, step)
    ensures Exclusive(cfg, EMPTY, steps') <==> Exclusive(cfg, EMPTY, steps) && OneAtATime(s, step)
  {
    steps', s' := steps + [step], Apply(cfg, s, step);
    LeadsOn(cfg, EMPTY, steps, s, step);
  }

  /** The point is the chunk's: its text's vector, and under it the chunk's own place, pages and digest. */
  predicate PointHolds(cfg: Config, point: Point, owner: UserId, d: DocumentId, chunk: ChunkData, title: string) {
    point.vector == cfg.embed(chunk.text) && point.payload.owner == owner && point.payload.document == d &&
    point.payload.ordinal == chunk.ordinal && point.payload.pageStart == chunk.pageStart &&
    point.payload.pageEnd == chunk.pageEnd && point.payload.contentHash == chunk.contentHash &&
    point.payload.title == title
  }

  /** What agreement means to a reader of the stores: the same ids, and behind each id its own row's vector and tags. */
  lemma AgreementMeans(cfg: Config, s: State, d: DocumentId)
    requires d in s.documents && Agreed(cfg, s, d)
    ensures var doc := s.documents[d];
            var rows, points := RowsFor(s.rows, doc.owner, d), PointsFor(s.points, doc.owner, d);
            rows.Keys == points.Keys &&
            (exists attempt: nat :: rows.Keys == Ids(attempt, |ChunksFor(cfg, doc.original)|)) &&
            (forall id :: id in rows ==>
              points[id] == PointOf(cfg, rows[id], TitleOf(doc.original)) &&
              PointHolds(cfg, points[id], doc.owner, d, rows[id].chunk, TitleOf(doc.original)) &&
              id.index < |ChunksFor(cfg, doc.original)| && rows[id].chunk == ChunksFor(cfg, doc.original)[id.index])
  {
    hide ChunksFor, RowsFor, PointsFor;
    var attempt: nat :| WrittenBy(cfg, s, d, attempt);
    var doc := s.documents[d];
    assert RowsBy(cfg, attempt, doc.owner, d, doc.original).Keys == Ids(attempt, |ChunksFor(cfg, doc.original)|);
  }

  /** Both stores hold of the owner's document just one row and one point for every chunk, under one attempt's ids. */
  ghost predicate HeldAs(cfg: Config, s: State, owner: UserId, d: DocumentId, chunks: seq<ChunkData>, title: string,
                         a: nat)
  {
    (forall i :: 0 <= i < |chunks| ==> ChunkHeld(cfg, s, owner, d, chunks[i], title, ChunkId(a, i))) &&
    (forall id :: id in s.rows && s.rows[id].owner == owner && s.rows[id].document == d ==>
      id.attempt == a && id.index < |chunks|) &&
    (forall id :: id in s.points && s.points[id].payload.owner == owner && s.points[id].payload.document == d ==>
      id.attempt == a && id.index < |chunks|)
  }

  ghost predicate ChunkHeld(cfg: Config, s: State, owner: UserId, d: DocumentId, chunk: ChunkData, title: string,
                            id: ChunkId)
  {
    id in s.rows && s.rows[id] == ChunkRow(d, owner, chunk) &&
    id in s.points && PointHolds(cfg, s.points[id], owner, d, chunk, title)
  }

  /** What one attempt's ids hold once both views are what it built. */
  lemma WrittenHolds(cfg: Config, s: State, owner: UserId, d: DocumentId, pages: seq<Page>, title: string, a: nat)
    requires ValidSizes(cfg.chunkSize, cfg.overlap)
    requires RowsFor(s.rows, owner, d) == RowsBy(cfg, a, owner, d, Readable(pages, title))
    requires PointsFor(s.points, owner, d) == PointsBy(cfg, a, owner, d, Readable(pages, title))
    ensures HeldAs(cfg, s, owner, d, Chunks(WordStream(pages), cfg.chunkSize, cfg.overlap), title, a)
  {
    hide Chunks, WordStream;
    var chunks := Chunks(WordStream(pages), cfg.chunkSize, cfg.overlap);
    var rows, points := RowsFor(s.rows, owner, d), PointsFor(s.points, owner, d);
    forall i | 0 <= i < |chunks|
      ensures ChunkHeld(cfg, s, owner, d, chunks[i], title, ChunkId(a, i))
    {
      assert ChunkId(a, i) in rows && ChunkId(a, i) in points;
    }
    forall id | id in s.rows && s.rows[id].owner == owner && s.rows[id].document == d
      ensures id.attempt == a && id.index < |chunks|
    {
      assert id in rows;
    }
    forall id | id in s.points && s.points[id].payload.owner == owner && s.points[id].payload.document == d
      ensures id.attempt == a && id.index < |chunks|
    {
      assert id in points;
    }
  }

  /** In agreement, a readable document is held chunk by chunk; of other documents nothing is held. */
  lemma AgreedHolds(cfg: Config, s: State, d: DocumentId)
    requires d in s.documents && Agreed(cfg, s, d)
    ensures var Document(owner, original, _) := s.documents[d];
            if original.Readable? && 0 < cfg.chunkSize && 0 <= cfg.overlap < cfg.chunkSize then
              var chunks := Chunks(WordStream(original.pages), cfg.chunkSize, cfg.overlap);
              exists a: nat :: HeldAs(cfg, s, owner, d, chunks, original.title, a)
            else forall a: nat :: HeldAs(cfg, s, owner, d, [], "", a)
  {
    hide Chunks, WordStream, HeldAs;
    var attempt: nat :| WrittenBy(cfg, s, d, attempt);
    var Document(owner, original, _) := s.documents[d];
    if original.Readable? && ValidSizes(cfg.chunkSize, cfg.overlap) {
      WrittenHolds(cfg, s, owner, d, original.pages, original.title, attempt);
    } else {
      NothingWritten(cfg, s, owner, d, attempt, original);
    }
  }

  lemma NothingWritten(cfg: Config, s: State, owner: UserId, d: DocumentId, a: nat, original: Original)
    requires ChunksFor(cfg, original) == []
    requires RowsFor(s.rows, owner, d) == RowsBy(cfg, a, owner, d, original)
    requires PointsFor(s.points, owner, d) == PointsBy(cfg, a, owner, d, original)
    ensures forall b: nat :: HeldAs(cfg, s, owner, d, [], "", b)
  {
    hide ChunksFor;
    assert RowsFor(s.rows, owner, d) == map[] && PointsFor(s.points, owner, d) == map[];
    assert forall id :: id in s.rows && s.rows[id].owner == owner && s.rows[id].document == d ==>
      id in RowsFor(s.rows, owner, d);
    assert forall id :: id in s.points && s.points[id].payload.owner == owner && s.points[id].payload.document == d ==>
      id in PointsFor(s.points, owner, d);
  }
}
