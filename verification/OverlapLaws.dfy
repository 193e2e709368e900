/** What the two stores agree on when attempts overlap: exactly the last writes of each decide, over every run. */
module OverlapLaws {
  import opened Ingestion
  import opened IngestionSafety
  import opened Shared

  /**
   What a run wrote of one document: the attempts that upserted its points since anyone last cleared them, and the
   last attempt that committed its rows.
   */
  datatype Writes = Writes(held: set<nat>, committed: Option<nat>)

  const UNWRITTEN := Writes({}, None)

  /** The document an attempt works on. */
  function DocumentOf(s: State, a: nat): DocumentId
    requires a in s.attempts
  {
    s.attempts[a].message.document
  }

  /** What a step adds to the writes of `d`; a terminal transaction that finds its document gone clears instead. */
  function Wrote(cfg: Config, s: State, step: Step, d: DocumentId, w: Writes): Writes
    requires Enabled(cfg, s, step)
  {
    match step
    case ClearVectors(a) => if DocumentOf(s, a) == d then w.(held := {}) else w
    case UpsertVectors(a) => if DocumentOf(s, a) == d then w.(held := w.held + {a}) else w
    case Commit(a) =>
      if DocumentOf(s, a) != d then w
      else if Found(s.documents, s.attempts[a].message.owner, d) then w.(committed := Some(a))
      else w.(held := {})
    case DeleteVectors(e) => if e == d then w.(held := {}) else w
    case _ => w
  }

  function WritesAlong(cfg: Config, s: State, steps: seq<Step>, d: DocumentId, w: Writes): Writes
    requires Valid(cfg, s, steps)
    decreases |steps|
  {
    if steps == [] then w
    else WritesAlong(cfg, Apply(cfg, s, steps[0]), steps[1..], d, Wrote(cfg, s, steps[0], d, w))
  }

  // ----------------------------------------------------- what the stores hold

  /** The points that several attempts on one document leave in the index together. */
  function PointsOf(cfg: Config, held: set<nat>, owner: UserId, d: DocumentId, original: Original):
    map<ChunkId, Point>
  {
    var chunks := ChunksFor(cfg, original);
    map id | id in (set a, i | a in held && 0 <= i < |chunks| :: ChunkId(a, i))
           :: PointOf(cfg, ChunkRow(d, owner, chunks[id.index]), TitleOf(original))
  }

  function RowsOf(cfg: Config, committed: Option<nat>, owner: UserId, d: DocumentId, original: Original):
    map<ChunkId, ChunkRow>
  {
    match committed
    case None => map[]
    case Some(a) => RowsBy(cfg, a, owner, d, original)
  }

  lemma NothingHeld(cfg: Config, owner: UserId, d: DocumentId, original: Original)
    ensures PointsOf(cfg, {}, owner, d, original) == map[]
  {
    hide ChunksFor;
  }

  lemma OneMoreHeld(cfg: Config, held: set<nat>, a: nat, owner: UserId, d: DocumentId, original: Original)
    ensures PointsOf(cfg, held + {a}, owner, d, original) ==
            PointsOf(cfg, held, owner, d, original) + PointsBy(cfg, a, owner, d, original)
  {
    hide ChunksFor;
  }

  // ------------------------------------------------------------- invariants

  /** Ids and document numbers come from counters, and nothing carries an attempt's ids before it writes them. */
  ghost predicate Numbered(s: State) {
    FreshIds(s) && Unwritten(s) &&
    (forall id :: id in s.rows ==> s.rows[id].document < s.nextDocument) &&
    (forall id :: id in s.points ==> s.points[id].payload.document < s.nextDocument)
  }

  /** Every attempt on `d` works with the document's own owner and bytes. */
  ghost predicate Matched(s: State, d: DocumentId) {
    forall a :: a in s.attempts && s.attempts[a].message.document == d && d in s.documents ==>
      s.attempts[a].message.owner == s.documents[d].owner && s.attempts[a].original == s.documents[d].original
  }

  /** Both stores hold of `d` exactly what the writes say. */
  ghost predicate Recorded(cfg: Config, s: State, d: DocumentId, w: Writes) {
    (d >= s.nextDocument ==> w == UNWRITTEN) &&
    (d in s.documents ==>
      var doc := s.documents[d];
      PointsFor(s.points, doc.owner, d) == PointsOf(cfg, w.held, doc.owner, d, doc.original) &&
      RowsFor(s.rows, doc.owner, d) == RowsOf(cfg, w.committed, doc.owner, d, doc.original))
  }

  ghost predicate Kept(cfg: Config, s: State, d: DocumentId, w: Writes) {
    Numbered(s) && Matched(s, d) && Recorded(cfg, s, d, w)
  }

  // ---------------------------------------------------------- step by step

  /** Steps that write neither store and claim nothing. */
  lemma QuietKept(cfg: Config, s: State, s': State, d: DocumentId, w: Writes)
    requires Kept(cfg, s, d, w)
    requires s'.rows == s.rows && s'.points == s.points
    requires s'.nextDocument == s.nextDocument && s'.nextAttempt == s.nextAttempt
    requires s'.documents.Keys == s.documents.Keys
    requires forall e :: e in s.documents ==>
               s'.documents[e].owner == s.documents[e].owner && s'.documents[e].original == s.documents[e].original
    requires s'.attempts.Keys <= s.attempts.Keys
    requires forall a :: a in s'.attempts ==>
               s'.attempts[a] == s.attempts[a] ||
               (s.attempts[a].phase == Claimed && s'.attempts[a] == s.attempts[a].(phase := Embedded))
    ensures Kept(cfg, s', d, w)
  {
    hide PointsFor, RowsFor, PointsOf, RowsOf;
  }

  lemma UploadKept(cfg: Config, s: State, owner: UserId, original: Original, d: DocumentId, w: Writes)
    requires Kept(cfg, s, d, w)
    ensures Kept(cfg, Apply(cfg, s, Upload(owner, original)), d, w)
  {
    hide PointsOf;
    NothingHeld(cfg, owner, d, original);
  }

  lemma DeliverKept(cfg: Config, s: State, m: Message, d: DocumentId, w: Writes)
    requires Kept(cfg, s, d, w) && m in s.queue
    ensures Kept(cfg, ApplyDeliver(s, m), d, w)
  {
    hide PointsFor, RowsFor, PointsOf, RowsOf, Numbered;
    DeliverKeepsNumbers(s, m);
    assert s.nextAttempt !in s.attempts by {
      NewAttempt(s);
    }
  }

  lemma NewAttempt(s: State)
    requires Numbered(s)
    ensures s.nextAttempt !in s.attempts
  {
  }

  lemma DeliverKeepsNumbers(s: State, m: Message)
    requires Numbered(s) && m in s.queue
    ensures Numbered(ApplyDeliver(s, m))
  {
  }

  lemma ClearKept(cfg: Config, s: State, a: nat, d: DocumentId, w: Writes)
    requires Kept(cfg, s, d, w) && InPhase(s, a, Embedded)
    ensures Kept(cfg, Apply(cfg, s, ClearVectors(a)), d, Wrote(cfg, s, ClearVectors(a), d, w))
  {
    hide PointsFor, RowsFor, PointsOf, RowsOf;
    var m := s.attempts[a].message;
    if d in s.documents {
      var doc := s.documents[d];
      PointsExceptFor(s.points, m.owner, m.document, doc.owner, d);
      NothingHeld(cfg, doc.owner, d, doc.original);
    }
  }

  lemma UpsertKept(cfg: Config, s: State, a: nat, d: DocumentId, w: Writes)
    requires Kept(cfg, s, d, w) && InPhase(s, a, Cleared)
    ensures Kept(cfg, Apply(cfg, s, UpsertVectors(a)), d, Wrote(cfg, s, UpsertVectors(a), d, w))
  {
    hide PointsFor, RowsFor, PointsOf, RowsOf, PointsBy, RowsBy;
    var Attempt(m, original, _) := s.attempts[a];
    var added := PointsBy(cfg, a, m.owner, m.document, original);
    PointsByShape(cfg, a, m.owner, m.document, original);
    UpsertKeepsIds(cfg, s, Apply(cfg, s, UpsertVectors(a)), a, added);
    if d in s.documents {
      var doc := s.documents[d];
      PointsAddedFor(s.points, added, m.owner, m.document, doc.owner, d);
      OneMoreHeld(cfg, w.held, a, doc.owner, d, doc.original);
    }
  }

  lemma CommitKept(cfg: Config, s: State, a: nat, d: DocumentId, w: Writes)
    requires Kept(cfg, s, d, w) && InPhase(s, a, Upserted)
    requires Found(s.documents, s.attempts[a].message.owner, s.attempts[a].message.document)
    ensures Kept(cfg, ApplyCommit(cfg, s, a), d,
                 if DocumentOf(s, a) == d then w.(committed := Some(a)) else w)
  {
    hide PointsFor, RowsFor, PointsOf, PointsBy, RowsBy, RowsExcept;
    CommitKeepsNumbers(cfg, s, a);
    var Attempt(m, original, _) := s.attempts[a];
    PointsByShape(cfg, a, m.owner, m.document, original);
    if d in s.documents {
      RowsReplacedFor(s.rows, RowsBy(cfg, a, m.owner, m.document, original), m.owner, m.document,
                      s.documents[d].owner, d);
    }
  }

  lemma CommitKeepsNumbers(cfg: Config, s: State, a: nat)
    requires Numbered(s) && InPhase(s, a, Upserted)
    requires Found(s.documents, s.attempts[a].message.owner, s.attempts[a].message.document)
    ensures Numbered(ApplyCommit(cfg, s, a))
  {
    hide PointsBy, RowsBy;
    var Attempt(m, original, _) := s.attempts[a];
    PointsByShape(cfg, a, m.owner, m.document, original);
  }

  lemma VoidCommitKept(cfg: Config, s: State, a: nat, d: DocumentId, w: Writes)
    requires Kept(cfg, s, d, w) && InPhase(s, a, Upserted)
    requires !Found(s.documents, s.attempts[a].message.owner, s.attempts[a].message.document)
    ensures Kept(cfg, ApplyCommit(cfg, s, a), d, if DocumentOf(s, a) == d then w.(held := {}) else w)
  {
    hide PointsFor, RowsFor, PointsOf, RowsOf;
    var m := s.attempts[a].message;
    if d in s.documents {
      PointsExceptFor(s.points, m.owner, m.document, s.documents[d].owner, d);
    }
  }

  lemma DeleteVectorsKept(cfg: Config, s: State, e: DocumentId, d: DocumentId, w: Writes)
    requires Kept(cfg, s, d, w) && e in s.documents
    ensures Kept(cfg, Apply(cfg, s, DeleteVectors(e)), d, if e == d then w.(held := {}) else w)
  {
    hide PointsFor, RowsFor, PointsOf, RowsOf;
    if d in s.documents {
      var doc := s.documents[d];
      PointsExceptFor(s.points, s.documents[e].owner, e, doc.owner, d);
      NothingHeld(cfg, doc.owner, d, doc.original);
    }
  }

  lemma DeleteRowKept(cfg: Config, s: State, e: DocumentId, d: DocumentId, w: Writes)
    requires Kept(cfg, s, d, w) && e in s.documents && e in s.deleting
    ensures Kept(cfg, Apply(cfg, s, DeleteRow(e)), d, w)
  {
    hide PointsFor, RowsFor, PointsOf, RowsOf;
    if d in s.documents && d != e {
      RowsLeft(s.rows, e, s.documents[d].owner, d);
    }
  }

  /** Every enabled step keeps the account, whoever else is at work on the document. */
  lemma StepKept(cfg: Config, s: State, step: Step, d: DocumentId, w: Writes)
    requires Kept(cfg, s, d, w) && Enabled(cfg, s, step)
    ensures Kept(cfg, Apply(cfg, s, step), d, Wrote(cfg, s, step, d, w))
  {
    hide Kept, PointsExcept, RowsExcept, ApplyCommit, ApplyDeliver, ApplyRelay, RowsBy, PointsBy, Raised;
    match step
    case Upload(owner, original) => UploadKept(cfg, s, owner, original, d, w);
    case Deliver(m) => DeliverKept(cfg, s, m, d, w);
    case ClearVectors(a) => ClearKept(cfg, s, a, d, w);
    case UpsertVectors(a) => UpsertKept(cfg, s, a, d, w);
    case Commit(a) =>
      if Found(s.documents, s.attempts[a].message.owner, s.attempts[a].message.document) {
        CommitKept(cfg, s, a, d, w);
      } else {
        VoidCommitKept(cfg, s, a, d, w);
      }
    case DeleteVectors(e) => DeleteVectorsKept(cfg, s, e, d, w);
    case DeleteRow(e) => DeleteRowKept(cfg, s, e, d, w);
    case TransientFailure(a) => RaisedKept(cfg, s, s.(attempts := s.attempts - {a}), s.attempts[a].message, d, w);
    case DeliverFailure(m) => RaisedKept(cfg, s, s.(queue := s.queue - multiset{m}), m, d, w);
    case ParseFailure(a) => QuietKept(cfg, s, Apply(cfg, s, step), d, w);
    case UserRetry(e) => QuietKept(cfg, s, Apply(cfg, s, step), d, w);
    case _ => OtherStepKept(cfg, s, step, d, w);
  }

  lemma RaisedKept(cfg: Config, s: State, rest: State, m: Message, d: DocumentId, w: Writes)
    requires Kept(cfg, s, d, w)
    requires rest == s.(queue := rest.queue, attempts := rest.attempts)
    requires forall a :: a in rest.attempts ==> a in s.attempts && rest.attempts[a] == s.attempts[a]
    ensures Kept(cfg, Raised(cfg, rest, m), d, w)
  {
    hide Kept;
    QuietKept(cfg, s, Raised(cfg, rest, m), d, w);
  }

  lemma OtherStepKept(cfg: Config, s: State, step: Step, d: DocumentId, w: Writes)
    requires Kept(cfg, s, d, w) && Enabled(cfg, s, step)
    requires !step.Upload? && !step.Deliver? && !step.ClearVectors? && !step.UpsertVectors? && !step.Commit? &&
             !step.DeleteVectors? && !step.DeleteRow? && !step.TransientFailure? && !step.DeliverFailure? &&
             !step.ParseFailure? && !step.UserRetry?
    ensures Kept(cfg, Apply(cfg, s, step), d, w)
  {
    hide Kept, Dispatched, Stamped, Unprocessed, MessagesFor, PointsExcept, RowsExcept, RowsBy, PointsBy;
    QuietKept(cfg, s, Apply(cfg, s, step), d, w);
  }

  lemma {:induction false} RunKept(cfg: Config, s: State, steps: seq<Step>, d: DocumentId, w: Writes)
    requires Kept(cfg, s, d, w) && Valid(cfg, s, steps)
    ensures Kept(cfg, Run(cfg, s, steps), d, WritesAlong(cfg, s, steps, d, w))
    decreases |steps|
  {
    hide Kept, Apply, Enabled, Wrote;
    if steps != [] {
      StepKept(cfg, s, steps[0], d, w);
      RunKept(cfg, Apply(cfg, s, steps[0]), steps[1..], d, Wrote(cfg, s, steps[0], d, w));
    }
  }

  // ------------------------------------------------------------ the theorem

  /** With chunks, ids tell the attempts apart: one attempt's points are in the index alone when it alone is held. */
  lemma HeldDecides(cfg: Config, held: set<nat>, a: nat, owner: UserId, d: DocumentId, original: Original)
    requires ChunksFor(cfg, original) != []
    ensures PointsOf(cfg, held, owner, d, original) == PointsBy(cfg, a, owner, d, original) <==> held == {a}
  {
    hide ChunksFor;
    var points, built := PointsOf(cfg, held, owner, d, original), PointsBy(cfg, a, owner, d, original);
    if points == built {
      assert forall b :: b in held <==> ChunkId(b, 0) in points;
      assert forall b: nat :: ChunkId(b, 0) in built <==> b == a;
    }
  }

  lemma CommittedDecides(cfg: Config, committed: Option<nat>, a: nat, owner: UserId, d: DocumentId, original: Original)
    requires ChunksFor(cfg, original) != []
    ensures RowsOf(cfg, committed, owner, d, original) == RowsBy(cfg, a, owner, d, original) <==> committed == Some(a)
  {
    hide ChunksFor;
    var built := RowsBy(cfg, a, owner, d, original);
    assert ChunkId(a, 0) in built;
    assert committed.Some? && RowsOf(cfg, committed, owner, d, original) == built ==>
      ChunkId(committed.value, 0) in built;
  }

  lemma NoChunksNoWrites(cfg: Config, w: Writes, a: nat, owner: UserId, d: DocumentId, original: Original)
    requires ChunksFor(cfg, original) == []
    ensures PointsOf(cfg, w.held, owner, d, original) == PointsBy(cfg, a, owner, d, original)
    ensures RowsOf(cfg, w.committed, owner, d, original) == RowsBy(cfg, a, owner, d, original)
  {
  }

  /** One attempt alone is answerable for both stores, as far as `d` has chunks at all. */
  ghost predicate OneAnswers(cfg: Config, s: State, d: DocumentId, w: Writes)
    requires d in s.documents
  {
    ChunksFor(cfg, s.documents[d].original) == [] || (w.committed.Some? && w.held == {w.committed.value})
  }

  lemma RecordedAgrees(cfg: Config, s: State, d: DocumentId, w: Writes)
    requires d in s.documents && Recorded(cfg, s, d, w)
    ensures Agreed(cfg, s, d) <==> OneAnswers(cfg, s, d, w)
  {
    hide ChunksFor, PointsFor, RowsFor, PointsOf, RowsOf, PointsBy, RowsBy;
    var doc := s.documents[d];
    if ChunksFor(cfg, doc.original) == [] {
      NoChunksNoWrites(cfg, w, 0, doc.owner, d, doc.original);
      assert WrittenBy(cfg, s, d, 0);
    } else {
      forall a: nat
        ensures WrittenBy(cfg, s, d, a) <==> w == Writes({a}, Some(a))
      {
        HeldDecides(cfg, w.held, a, doc.owner, d, doc.original);
        CommittedDecides(cfg, w.committed, a, doc.owner, d, doc.original);
      }
    }
  }

  /**
   Over every run, overlapping attempts and begun deletes included: index and rows of a document agree exactly when
   it has no chunks or the attempt that committed its rows last is the only one to have upserted its points since
   they were last cleared.
   */
  lemma AgreedIff(cfg: Config, steps: seq<Step>, d: DocumentId)
    requires Valid(cfg, EMPTY, steps) && d in Run(cfg, EMPTY, steps).documents
    ensures var s := Run(cfg, EMPTY, steps);
            var w := WritesAlong(cfg, EMPTY, steps, d, UNWRITTEN);
            Agreed(cfg, s, d) <==>
            ChunksFor(cfg, s.documents[d].original) == [] || (w.committed.Some? && w.held == {w.committed.value})
  {
    hide Agreed;
    assert Kept(cfg, EMPTY, d, UNWRITTEN);
    RunKept(cfg, EMPTY, steps, d, UNWRITTEN);
    RecordedAgrees(cfg, Run(cfg, EMPTY, steps), d, WritesAlong(cfg, EMPTY, steps, d, UNWRITTEN));
  }

  /** So a redelivery of a document still in flight is harmless to the index in just these runs. */
  lemma IndexAgreesIff(cfg: Config, steps: seq<Step>)
    requires Valid(cfg, EMPTY, steps)
    ensures var s := Run(cfg, EMPTY, steps);
            IndexAgrees(cfg, s) <==>
            forall d :: d in s.documents && s.documents[d].status == Indexed && d !in s.deleting ==>
              OneAnswers(cfg, s, d, WritesAlong(cfg, EMPTY, steps, d, UNWRITTEN))
  {
    hide Agreed, ChunksFor, Run, Valid, WritesAlong;
    var s := Run(cfg, EMPTY, steps);
    forall d | d in s.documents
      ensures Agreed(cfg, s, d) <==> OneAnswers(cfg, s, d, WritesAlong(cfg, EMPTY, steps, d, UNWRITTEN))
    {
      AgreedIff(cfg, steps, d);
    }
  }
}
