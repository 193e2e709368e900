/** One task message from delivery to its end: a run, its failure policy, bounded retries, and the sweep behind them. */
module Tasks {
  import opened Chunking
  import opened Ingestion
  import opened IngestionSafety
  import opened Pipeline
  import opened Shared

  /**
   What goes wrong in one delivery: where the run raises, and whether marking the document failed raises as well, when
   the body tries it for a parse error and when Celery's failure hook tries it. Its one commit is all or nothing.
   */
  datatype Trouble = Trouble(fault: Fault, bodyHandlerRaises: bool, hookRaises: bool)

  const NO_TROUBLE := Trouble(NoFault, false, false)

  /** The handler was reached and never got through, so the document stays as the run left it. */
  predicate Lost(cfg: Config, m: Message, outcome: Outcome, trouble: Trouble) {
    match outcome
    // A handler that raises in the body escapes it, and the hook tries once more.
    case Unparseable => trouble.bodyHandlerRaises && trouble.hookRaises
    case Unclaimed => cfg.maxRetries <= m.retries && trouble.hookRaises
    case Aborted => cfg.maxRetries <= m.retries && trouble.hookRaises
    case _ => false
  }

  /** The step the Celery task takes once the run has ended. */
  function Ending(cfg: Config, m: Message, a: nat, outcome: Outcome, lost: bool): seq<Step> {
    match outcome
    case Skipped => []
    case Completed => [Finish(a)]
    case Undone => []
    case Unparseable => [if lost then GiveUp(a) else ParseFailure(a)]
    case Unclaimed => [if lost then LoseMessage(m) else DeliverFailure(m)]
    case Aborted => [if lost then GiveUp(a) else TransientFailure(a)]
  }

  /** One delivery of a message: all its protocol steps. */
  function DeliverySteps(cfg: Config, s: State, m: Message, trouble: Trouble): seq<Step> {
    var outcome := Progressed(cfg, s, m, trouble.fault).outcome;
    RunSteps(cfg, s, m, trouble.fault) + Ending(cfg, m, s.nextAttempt, outcome, Lost(cfg, m, outcome, trouble))
  }

  // ------------------------------------------------------ where a run raises

  /** The document is there for the message's owner and is not indexed yet. */
  predicate Claimable(s: State, m: Message) {
    m.document in s.documents && s.documents[m.document].owner == m.owner && s.documents[m.document].status != Indexed
  }

  /** The run raises at one of these; the three in `batched` are not reached without chunks. */
  predicate Raises(fault: Fault, points: set<Await>, batched: set<Await>, empty: bool) {
    fault.RaisesAt? && (fault.point in points || (fault.point in batched && !empty))
  }

  /** How a delivery ends and how far it gets, by where it raises and what it finds. */
  lemma OutcomeIs(cfg: Config, s: State, m: Message, fault: Fault)
    ensures var outcome := Progressed(cfg, s, m, fault).outcome;
            (outcome == Unclaimed <==>
              fault == RaisesAt(LoadDocument) || (fault == RaisesAt(CommitClaim) && Claimable(s, m))) &&
            (outcome == Skipped <==> fault != RaisesAt(LoadDocument) && !Claimable(s, m)) &&
            (outcome == Unparseable <==>
              Claimable(s, m) && s.documents[m.document].original.Unreadable? &&
              !Raises(fault, {LoadDocument, CommitClaim, FetchObject}, {}, false))
    ensures Claimable(s, m) && !Raises(fault, {LoadDocument, CommitClaim}, {}, false) ==>
              var original, progress := s.documents[m.document].original, Progressed(cfg, s, m, fault);
              var chunked := original.Readable? && ValidSizes(cfg.chunkSize, cfg.overlap);
              var empty := ChunksFor(cfg, original) == [];
              (2 <= progress.taken <==> chunked && !Raises(fault, {FetchObject}, {EmbedTexts}, empty)) &&
              (3 <= progress.taken <==>
                2 <= progress.taken && !Raises(fault, {EnsureCollection, ClearPoints}, {}, empty)) &&
              (4 <= progress.taken <==> 3 <= progress.taken && !Raises(fault, {}, {UpsertPoints}, empty)) &&
              (progress.outcome == Completed <==>
                4 <= progress.taken &&
                !Raises(fault, {DeleteRows, ReloadDocument, AddEvent, CommitTerminal}, {InsertRows}, empty))
  {
    hide ChunksFor;
  }

  // ------------------------------------------------ a delivery in closed form

  function PhaseAt(taken: nat): Phase
    requires 1 <= taken <= 5
  {
    [Claimed, Embedded, Cleared, Upserted, Committed][taken - 1]
  }

  /** The state a claimed run leaves after its first `taken` steps, its attempt still open. */
  function Stopped(cfg: Config, s: State, m: Message, taken: nat): State
    requires Found(s.documents, m.owner, m.document) && 1 <= taken <= 5
  {
    var a, original := s.nextAttempt, s.documents[m.document].original;
    var kept := PointsExcept(s.points, m.owner, m.document);
    s.(queue := s.queue - multiset{m},
       nextAttempt := a + 1,
       attempts := s.attempts[a := Attempt(m, original, PhaseAt(taken))],
       documents := WithStatus(s.documents, m.owner, m.document, if taken == 5 then Indexed else Processing),
       points :=
         if taken < 3 then s.points
         else if taken == 3 then kept
         else kept + PointsBy(cfg, a, m.owner, m.document, original),
       rows :=
         if taken == 5
         then RowsExcept(s.rows, m.owner, m.document) + RowsBy(cfg, a, m.owner, m.document, original)
         else s.rows,
       outbox := if taken == 5 then s.outbox + [Event(DocumentIndexed, m.document, m.owner, false)] else s.outbox)
  }

  /** The attempt closed, and the Celery task's failure policy applied. */
  function Closed(cfg: Config, m: Message, stopped: State, attempts: map<nat, Attempt>, outcome: Outcome, lost: bool):
    State
  {
    var closed := stopped.(attempts := attempts);
    match outcome
    case Unparseable =>
      if lost then closed else closed.(documents := WithStatus(closed.documents, m.owner, m.document, Failed))
    case Aborted => if lost then closed else Raised(cfg, closed, m)
    case _ => closed
  }

  /** The whole effect of delivering one message once. */
  function Delivered(cfg: Config, s: State, m: Message, trouble: Trouble): State {
    var progress, rest := Progressed(cfg, s, m, trouble.fault), s.(queue := s.queue - multiset{m});
    var lost := Lost(cfg, m, progress.outcome, trouble);
    match progress.outcome
    case Skipped => rest
    case Unclaimed => if lost then rest else Raised(cfg, rest, m)
    case _ => Closed(cfg, m, Stopped(cfg, s, m, progress.taken), s.attempts, progress.outcome, lost)
  }

  lemma StoppedFields(cfg: Config, s: State, m: Message, taken: nat)
    requires Found(s.documents, m.owner, m.document) && 1 <= taken <= 5
    ensures var stopped := Stopped(cfg, s, m, taken);
            stopped.attempts ==
            s.attempts[s.nextAttempt := Attempt(m, s.documents[m.document].original, PhaseAt(taken))] &&
            stopped.queue == s.queue - multiset{m} && stopped.nextAttempt == s.nextAttempt + 1 &&
            stopped.documents ==
            WithStatus(s.documents, m.owner, m.document, if taken == 5 then Indexed else Processing)
  {
  }

  // ---------------------------------------- it is a run of the protocol

  lemma ClaimLeads(cfg: Config, s: State, m: Message)
    requires m in s.queue
    ensures Valid(cfg, s, [Deliver(m)]) && Run(cfg, s, [Deliver(m)]) == ApplyDeliver(s, m)
    ensures !Busy(s, m.document) ==> Exclusive(cfg, s, [Deliver(m)])
  {
    hide Apply, Enabled;
    DeliverEnabled(cfg, s, m);
    LeadsOn(cfg, s, [], s, Deliver(m));
    assert [] + [Deliver(m)] == [Deliver(m)];
  }

  /** Each step of a full run is enabled after the ones before it and adds its own effect. */
  lemma StepAdvances(cfg: Config, s: State, m: Message, taken: nat)
    requires Found(s.documents, m.owner, m.document) && 1 <= taken < 5
    requires s.documents[m.document].original.Readable? && ValidSizes(cfg.chunkSize, cfg.overlap)
    ensures var step := FullRun(m, s.nextAttempt)[taken];
            Enabled(cfg, Stopped(cfg, s, m, taken), step) && OneAtATime(Stopped(cfg, s, m, taken), step) &&
            Apply(cfg, Stopped(cfg, s, m, taken), step) == Stopped(cfg, s, m, taken + 1)
  {
    hide Stopped, PointsBy, RowsBy, PointsExcept, RowsExcept, ChunksFor, Apply, Enabled;
    StoppedFields(cfg, s, m, taken);
    if taken == 1 {
      EmbedEnabled(cfg, Stopped(cfg, s, m, taken), s.nextAttempt);
      EmbedApplied(cfg, Stopped(cfg, s, m, taken), s.nextAttempt);
    } else {
      WriteApplied(cfg, Stopped(cfg, s, m, taken), s.nextAttempt);
    }
    StoppedNext(cfg, s, m, taken);
  }

  /** What one more step of a full run changes. */
  lemma StoppedNext(cfg: Config, s: State, m: Message, taken: nat)
    requires Found(s.documents, m.owner, m.document) && 1 <= taken < 5
    ensures var now, a, original := Stopped(cfg, s, m, taken), s.nextAttempt, s.documents[m.document].original;
            a in now.attempts &&
            Stopped(cfg, s, m, taken + 1) ==
            match taken
            case 1 => now.(attempts := Advance(now, a, Embedded))
            case 2 =>
              now.(points := PointsExcept(now.points, m.owner, m.document), attempts := Advance(now, a, Cleared))
            case 3 =>
              now.(points := now.points + PointsBy(cfg, a, m.owner, m.document, original),
                   attempts := Advance(now, a, Upserted))
            case _ => ApplyCommit(cfg, now, a)
  {
    hide PointsBy, RowsBy, PointsExcept, RowsExcept, ChunksFor;
  }

  lemma EmbedEnabled(cfg: Config, s: State, a: nat)
    requires InPhase(s, a, Claimed) && s.attempts[a].original.Readable? && ValidSizes(cfg.chunkSize, cfg.overlap)
    ensures Enabled(cfg, s, Embed(a))
  {
  }

  lemma {:induction false} PrefixLeads(cfg: Config, s: State, m: Message, taken: nat)
    requires m in s.queue && Found(s.documents, m.owner, m.document) && s.documents[m.document].status != Indexed
    requires 1 <= taken <= 5
    requires 1 < taken ==> s.documents[m.document].original.Readable? && ValidSizes(cfg.chunkSize, cfg.overlap)
    ensures var steps := FullRun(m, s.nextAttempt)[..taken];
            Valid(cfg, s, steps) && Run(cfg, s, steps) == Stopped(cfg, s, m, taken) &&
            (!Busy(s, m.document) ==> Exclusive(cfg, s, steps))
  {
    hide Apply, Enabled, Valid, Run, Exclusive, PointsBy, RowsBy, PointsExcept, RowsExcept, OneAtATime;
    var full := FullRun(m, s.nextAttempt);
    if taken == 1 {
      ClaimLeads(cfg, s, m);
      assert full[..1] == [Deliver(m)];
    } else {
      PrefixLeads(cfg, s, m, taken - 1);
      StepAdvances(cfg, s, m, taken - 1);
      LeadsOn(cfg, s, full[..taken - 1], Stopped(cfg, s, m, taken - 1), full[taken - 1]);
      assert full[..taken] == full[..taken - 1] + [full[taken - 1]];
    }
  }

  /** What a run that claimed its document went through. */
  lemma ClaimedRun(cfg: Config, s: State, m: Message, fault: Fault)
    requires Progressed(cfg, s, m, fault).outcome !in {Skipped, Unclaimed}
    ensures Found(s.documents, m.owner, m.document) && s.documents[m.document].status != Indexed
    ensures var progress, original := Progressed(cfg, s, m, fault), s.documents[m.document].original;
            1 <= progress.taken <= 5 && progress.outcome != Undone &&
            (1 < progress.taken ==> original.Readable? && ValidSizes(cfg.chunkSize, cfg.overlap)) &&
            (progress.outcome == Completed <==> progress.taken == 5) &&
            (progress.outcome == Unparseable ==> progress.taken == 1 && original.Unreadable?)
  {
    hide ChunksFor;
  }

  /** Delivering a message is a run of the protocol, and `Delivered` is where it ends. */
  lemma DeliveryLeads(cfg: Config, s: State, m: Message, trouble: Trouble)
    requires m in s.queue && s.nextAttempt !in s.attempts
    ensures var steps := DeliverySteps(cfg, s, m, trouble);
            Valid(cfg, s, steps) && Run(cfg, s, steps) == Delivered(cfg, s, m, trouble) &&
            (!Busy(s, m.document) ==> Exclusive(cfg, s, steps))
  {
    hide Valid, Run, Exclusive, Apply, Enabled, Progressed, Stopped, Closed, Lost;
    var fault := trouble.fault;
    var progress := Progressed(cfg, s, m, fault);
    var lost := Lost(cfg, m, progress.outcome, trouble);
    if progress.outcome == Skipped {
      SkippedMeans(cfg, s, m, fault);
      ClaimLeads(cfg, s, m);
      assert DeliverySteps(cfg, s, m, trouble) == [Deliver(m)];
    } else if progress.outcome == Unclaimed {
      FailedDeliveryLeads(cfg, s, m, lost);
      UnclaimedMeans(cfg, s, m, fault);
      assert DeliverySteps(cfg, s, m, trouble) == [if lost then LoseMessage(m) else DeliverFailure(m)];
    } else {
      ClaimedRun(cfg, s, m, fault);
      PrefixLeads(cfg, s, m, progress.taken);
      var stopped := Stopped(cfg, s, m, progress.taken);
      StoppedFields(cfg, s, m, progress.taken);
      assert stopped.attempts - {s.nextAttempt} == s.attempts;
      EndingCloses(cfg, stopped, s.nextAttempt, progress.outcome, lost);
      LeadsOn(cfg, s, RunSteps(cfg, s, m, fault), stopped, Ending(cfg, m, s.nextAttempt, progress.outcome, lost)[0]);
    }
  }

  lemma UnclaimedMeans(cfg: Config, s: State, m: Message, fault: Fault)
    requires Progressed(cfg, s, m, fault).outcome == Unclaimed
    ensures Progressed(cfg, s, m, fault).taken == 0
  {
    hide ChunksFor;
  }

  lemma FailedDelivery(cfg: Config, s: State, m: Message, lost: bool)
    requires m in s.queue
    ensures var step, rest := if lost then LoseMessage(m) else DeliverFailure(m), s.(queue := s.queue - multiset{m});
            Enabled(cfg, s, step) && Apply(cfg, s, step) == (if lost then rest else Raised(cfg, rest, m)) &&
            (!Busy(s, m.document) ==> OneAtATime(s, step))
  {
    hide Raised;
  }

  lemma FailedDeliveryLeads(cfg: Config, s: State, m: Message, lost: bool)
    requires m in s.queue
    ensures var steps, rest := [if lost then LoseMessage(m) else DeliverFailure(m)], s.(queue := s.queue - multiset{m});
            Valid(cfg, s, steps) && Run(cfg, s, steps) == (if lost then rest else Raised(cfg, rest, m)) &&
            (!Busy(s, m.document) ==> Exclusive(cfg, s, steps))
  {
    hide Raised, Apply, Enabled, OneAtATime;
    FailedDelivery(cfg, s, m, lost);
    var step := if lost then LoseMessage(m) else DeliverFailure(m);
    LeadsOn(cfg, s, [], s, step);
    assert [] + [step] == [step];
  }

  /** The last step closes the attempt and applies the failure policy. */
  lemma EndingCloses(cfg: Config, s: State, a: nat, outcome: Outcome, lost: bool)
    requires a in s.attempts && outcome !in {Skipped, Unclaimed, Undone}
    requires outcome == Completed ==> s.attempts[a].phase == Committed
    requires outcome == Unparseable ==> s.attempts[a].phase == Claimed && s.attempts[a].original.Unreadable?
    ensures var m := s.attempts[a].message;
            var ending := Ending(cfg, m, a, outcome, lost);
            |ending| == 1 && Enabled(cfg, s, ending[0]) && OneAtATime(s, ending[0]) &&
            Apply(cfg, s, ending[0]) == Closed(cfg, m, s, s.attempts - {a}, outcome, lost)
  {
  }

  // ------------------------------------------------- one attempt, one document

  /** An uninterrupted attempt, whatever an earlier one left behind, makes both stores exactly what it built. */
  lemma UninterruptedAttempt(cfg: Config, s: State, m: Message) returns (s': State)
    requires FreshIds(s) && Found(s.documents, m.owner, m.document) && s.documents[m.document].status != Indexed
    requires s.documents[m.document].original.Readable? && ValidSizes(cfg.chunkSize, cfg.overlap)
    ensures var a, original := s.nextAttempt, s.documents[m.document].original;
            s'.documents == s.documents[m.document := s.documents[m.document].(status := Indexed)] &&
            RowsFor(s'.rows, m.owner, m.document) == RowsBy(cfg, a, m.owner, m.document, original) &&
            PointsFor(s'.points, m.owner, m.document) == PointsBy(cfg, a, m.owner, m.document, original)
    ensures forall o: UserId, e: DocumentId :: (o, e) != (m.owner, m.document) ==>
              RowsFor(s'.rows, o, e) == RowsFor(s.rows, o, e) && PointsFor(s'.points, o, e) == PointsFor(s.points, o, e)
    ensures s' == Delivered(cfg, s, m, NO_TROUBLE)
    ensures s'.outbox == s.outbox + [Event(DocumentIndexed, m.document, m.owner, false)]
    ensures s'.queue == s.queue - multiset{m} && s'.attempts == s.attempts && s'.nextAttempt == s.nextAttempt + 1
    ensures var original := s.documents[m.document].original;
            HeldAs(cfg, s', m.owner, m.document, Chunks(WordStream(original.pages), cfg.chunkSize, cfg.overlap),
                   original.title, s.nextAttempt)
  {
    CleanDelivery(cfg, s, m);
    hide Chunks, WordStream, HeldAs;
    hide Delivered, PointsBy, RowsBy, PointsExcept, RowsExcept, RowsFor, PointsFor;
    s' := Delivered(cfg, s, m, NO_TROUBLE);
    forall o: UserId, e: DocumentId
      ensures (o, e) != (m.owner, m.document) ==>
                RowsFor(s'.rows, o, e) == RowsFor(s.rows, o, e) &&
                PointsFor(s'.points, o, e) == PointsFor(s.points, o, e)
    {
      RewrittenViews(cfg, s, m, o, e);
    }
    RewrittenViews(cfg, s, m, m.owner, m.document);
    var original := s.documents[m.document].original;
    WrittenHolds(cfg, s', m.owner, m.document, original.pages, original.title, s.nextAttempt);
  }

  lemma CleanDelivery(cfg: Config, s: State, m: Message)
    requires Found(s.documents, m.owner, m.document) && s.documents[m.document].status != Indexed
    requires s.documents[m.document].original.Readable? && ValidSizes(cfg.chunkSize, cfg.overlap)
    ensures Delivered(cfg, s, m, NO_TROUBLE) == Stopped(cfg, s, m, 5).(attempts := s.attempts)
  {
    hide Stopped, ChunksFor;
    assert Progressed(cfg, s, m, NoFault) == Progress(5, Completed);
  }

  /** What clearing and rewriting one document does to every view. */
  lemma RewrittenViews(cfg: Config, s: State, m: Message, o: UserId, e: DocumentId)
    requires FreshIds(s) && Found(s.documents, m.owner, m.document)
    ensures var a, original := s.nextAttempt, s.documents[m.document].original;
            var points := PointsBy(cfg, a, m.owner, m.document, original);
            var rows := RowsBy(cfg, a, m.owner, m.document, original);
            PointsFor(PointsExcept(s.points, m.owner, m.document) + points, o, e) ==
            (if m.owner == o && m.document == e then points else PointsFor(s.points, o, e)) &&
            RowsFor(RowsExcept(s.rows, m.owner, m.document) + rows, o, e) ==
            (if m.owner == o && m.document == e then rows else RowsFor(s.rows, o, e))
  {
    hide PointsBy, RowsBy, PointsExcept, RowsExcept, RowsFor, PointsFor;
    var a, original := s.nextAttempt, s.documents[m.document].original;
    var points, kept := PointsBy(cfg, a, m.owner, m.document, original), PointsExcept(s.points, m.owner, m.document);
    PointsByShape(cfg, a, m.owner, m.document, original);
    PointsExceptFor(s.points, m.owner, m.document, o, e);
    PointsAddedFor(kept, points, m.owner, m.document, o, e);
    RowsReplacedFor(s.rows, RowsBy(cfg, a, m.owner, m.document, original), m.owner, m.document, o, e);
    assert map[] + points == points;
  }

  /** The load raised: with retries left the message comes back, on the last try the hook marks the document failed. */
  predicate LoadFailureShows(cfg: Config, m: Message, trouble: Trouble) {
    trouble.fault == RaisesAt(LoadDocument) && (m.retries < cfg.maxRetries || !trouble.hookRaises)
  }

  /** Another delivery for an indexed document changes nothing but the queue, unless its load raises and that shows. */
  lemma RedeliveryIsIdleIff(cfg: Config, s: State, m: Message, trouble: Trouble)
    requires m in s.queue && Found(s.documents, m.owner, m.document) && s.documents[m.document].status == Indexed
    ensures Delivered(cfg, s, m, trouble) == s.(queue := s.queue - multiset{m}) <==>
            !LoadFailureShows(cfg, m, trouble)
  {
    var rest := s.(queue := s.queue - multiset{m});
    if LoadFailureShows(cfg, m, trouble) {
      assert Delivered(cfg, s, m, trouble) == Raised(cfg, rest, m);
      if m.retries < cfg.maxRetries {
        assert Raised(cfg, rest, m).queue[NextTry(m)] == rest.queue[NextTry(m)] + 1;
      } else {
        assert Raised(cfg, rest, m).documents[m.document].status == Failed;
      }
    }
  }

  // ---------------------------------------------------------- bounded retries

  /** Nothing is left to do for the document: it is gone, indexed or failed. */
  predicate Settled(s: State, owner: UserId, document: DocumentId) {
    !Found(s.documents, owner, document) || s.documents[document].status in {Indexed, Failed}
  }

  /** Seconds before the next attempt: one, two, four and so on. */
  function BackoffSeconds(retries: nat): nat {
    if retries == 0 then 1 else 2 * BackoffSeconds(retries - 1)
  }

  datatype TaskResult = TaskResult(state: State, attempts: nat, backoff: nat)

  function FirstTrouble(troubles: seq<Trouble>): Trouble {
    if troubles == [] then NO_TROUBLE else troubles[0]
  }

  function LaterTroubles(troubles: seq<Trouble>): seq<Trouble> {
    if troubles == [] then [] else troubles[1..]
  }

  predicate Retried(cfg: Config, s: State, m: Message, fault: Fault) {
    Progressed(cfg, s, m, fault).outcome in {Unclaimed, Aborted} && m.retries < cfg.maxRetries
  }

  function NextTry(m: Message): Message {
    m.(retries := m.retries + 1)
  }

  /** A message from its first delivery to its last; delivery `i` meets `troubles[i]`. */
  function Processed(cfg: Config, s: State, m: Message, troubles: seq<Trouble>): TaskResult
    decreases if m.retries < cfg.maxRetries then cfg.maxRetries - m.retries else 0
  {
    var trouble := FirstTrouble(troubles);
    var s' := Delivered(cfg, s, m, trouble);
    if Retried(cfg, s, m, trouble.fault) then
      var rest := Processed(cfg, s', NextTry(m), LaterTroubles(troubles));
      TaskResult(rest.state, 1 + rest.attempts, BackoffSeconds(m.retries) + rest.backoff)
    else TaskResult(s', 1, 0)
  }

  /** One delivery: what it found and what it met. */
  datatype Try = Try(state: State, message: Message, trouble: Trouble)

  /** The delivery that is not retried. */
  function LastTry(cfg: Config, s: State, m: Message, troubles: seq<Trouble>): Try
    decreases if m.retries < cfg.maxRetries then cfg.maxRetries - m.retries else 0
  {
    var trouble := FirstTrouble(troubles);
    if Retried(cfg, s, m, trouble.fault)
    then LastTry(cfg, Delivered(cfg, s, m, trouble), NextTry(m), LaterTroubles(troubles))
    else Try(s, m, trouble)
  }

  /** The failure handler was reached and raised, and the run had claimed the document or found it unsettled. */
  predicate Strands(cfg: Config, last: Try) {
    var Try(s, m, trouble) := last;
    var outcome := Progressed(cfg, s, m, trouble.fault).outcome;
    Lost(cfg, m, outcome, trouble) && (outcome == Unclaimed ==> !Settled(s, m.owner, m.document))
  }

  /** What strands a document, spelled out: each chance to mark it failed raised, and it was left unfinished. */
  lemma StrandsIff(cfg: Config, s: State, m: Message, trouble: Trouble)
    requires !Retried(cfg, s, m, trouble.fault)
    ensures Strands(cfg, Try(s, m, trouble)) <==>
            match Progressed(cfg, s, m, trouble.fault).outcome
            case Unparseable => trouble.bodyHandlerRaises && trouble.hookRaises
            case Aborted => trouble.hookRaises
            case Unclaimed =>
              trouble.hookRaises && m.document in s.documents && s.documents[m.document].owner == m.owner &&
              s.documents[m.document].status !in {Indexed, Failed}
            case _ => false
  {
    hide Progressed;
  }

  lemma DeliveredFacts(cfg: Config, s: State, m: Message, trouble: Trouble)
    requires m in s.queue && s.nextAttempt !in s.attempts
    ensures var s' := Delivered(cfg, s, m, trouble);
            s'.attempts == s.attempts && s.nextAttempt <= s'.nextAttempt <= s.nextAttempt + 1 &&
            (Retried(cfg, s, m, trouble.fault) ==> NextTry(m) in s'.queue) &&
            (!Retried(cfg, s, m, trouble.fault) ==>
              (Settled(s', m.owner, m.document) <==> !Strands(cfg, Try(s, m, trouble))))
  {
    hide Progressed, Stopped, Closed, Raised;
    var progress := Progressed(cfg, s, m, trouble.fault);
    var lost := Lost(cfg, m, progress.outcome, trouble);
    if progress.outcome == Skipped {
      SkippedMeans(cfg, s, m, trouble.fault);
    } else if progress.outcome == Unclaimed {
      RaisedFacts(cfg, s.(queue := s.queue - multiset{m}), m);
    } else {
      ClaimedRun(cfg, s, m, trouble.fault);
      StoppedFields(cfg, s, m, progress.taken);
      ClosedFacts(cfg, m, Stopped(cfg, s, m, progress.taken), s.attempts, progress.outcome, lost);
    }
  }

  /** A raised message either waits for its next try or its document is settled. */
  lemma RaisedFacts(cfg: Config, s: State, m: Message)
    ensures var s' := Raised(cfg, s, m);
            s'.attempts == s.attempts && s'.nextAttempt == s.nextAttempt &&
            if m.retries < cfg.maxRetries then NextTry(m) in s'.queue else Settled(s', m.owner, m.document)
  {
  }

  lemma ClosedFacts(cfg: Config, m: Message, s: State, attempts: map<nat, Attempt>, outcome: Outcome, lost: bool)
    requires outcome == Completed <==> Settled(s, m.owner, m.document)
    requires outcome !in {Skipped, Unclaimed, Undone} && (lost ==> outcome != Completed)
    requires lost && outcome == Aborted ==> cfg.maxRetries <= m.retries
    ensures var s' := Closed(cfg, m, s, attempts, outcome, lost);
            s'.attempts == attempts && s'.nextAttempt == s.nextAttempt &&
            if outcome == Aborted && m.retries < cfg.maxRetries then NextTry(m) in s'.queue
            else Settled(s', m.owner, m.document) <==> !lost
  {
    hide Raised;
    RaisedFacts(cfg, s.(attempts := attempts), m);
  }

  lemma SkippedMeans(cfg: Config, s: State, m: Message, fault: Fault)
    requires Progressed(cfg, s, m, fault).outcome == Skipped
    ensures Settled(s, m.owner, m.document) && Progressed(cfg, s, m, fault).taken == 1
    ensures ApplyDeliver(s, m) == s.(queue := s.queue - multiset{m})
  {
    hide ChunksFor;
  }

  /** No message outlives its budget: at most `maxRetries + 1` attempts and `2^maxRetries - 1` seconds of backoff. */
  lemma {:induction false} TaskIsBounded(cfg: Config, s: State, m: Message, troubles: seq<Trouble>)
    requires m.retries <= cfg.maxRetries
    ensures Processed(cfg, s, m, troubles).attempts <= cfg.maxRetries - m.retries + 1
    ensures Processed(cfg, s, m, troubles).backoff + BackoffSeconds(m.retries) <= BackoffSeconds(cfg.maxRetries)
    decreases cfg.maxRetries - m.retries
  {
    hide Delivered, Progressed;
    BackoffGrows(m.retries, cfg.maxRetries);
    var trouble := FirstTrouble(troubles);
    if Retried(cfg, s, m, trouble.fault) {
      TaskIsBounded(cfg, Delivered(cfg, s, m, trouble), NextTry(m), LaterTroubles(troubles));
    }
  }

  lemma {:induction false} BackoffGrows(a: nat, b: nat)
    requires a <= b
    ensures BackoffSeconds(a) <= BackoffSeconds(b)
  {
    if a < b {
      BackoffGrows(a, b - 1);
    }
  }

  function Power(base: nat, n: nat): nat {
    if n == 0 then 1 else base * Power(base, n - 1)
  }

  /** Before try `n + 1` the wait is two to the `n` seconds. */
  lemma {:induction false} WaitIsPower(n: nat)
    ensures BackoffSeconds(n) == Power(2, n)
  {
    if n > 0 {
      WaitIsPower(n - 1);
    }
  }

  /**
   The waits of a message in all: from its retries so far to those it ends with, powers of two apart; and no message
   outlives its budget.
   */
  lemma {:induction false} WaitsAddUp(cfg: Config, s: State, m: Message, troubles: seq<Trouble>)
    requires m.retries <= cfg.maxRetries
    ensures var result := Processed(cfg, s, m, troubles);
            1 <= result.attempts <= cfg.maxRetries - m.retries + 1 &&
            result.backoff + Power(2, m.retries) == Power(2, m.retries + result.attempts - 1) <=
            Power(2, cfg.maxRetries)
    decreases cfg.maxRetries - m.retries
  {
    hide Delivered, Progressed;
    var trouble, result := FirstTrouble(troubles), Processed(cfg, s, m, troubles);
    TaskIsBounded(cfg, s, m, troubles);
    if Retried(cfg, s, m, trouble.fault) {
      WaitIsPower(m.retries);
      WaitsAddUp(cfg, Delivered(cfg, s, m, trouble), NextTry(m), LaterTroubles(troubles));
    } else {
      BackoffGrows(m.retries, cfg.maxRetries);
      WaitIsPower(m.retries);
      WaitIsPower(cfg.maxRetries);
    }
  }

  /**
   However its deliveries fail, a message is worked off by steps of the protocol; and it ends with its document settled
   exactly when the last delivery did not strand it.
   */
  lemma {:induction false} TaskSettlesIff(cfg: Config, s: State, m: Message, troubles: seq<Trouble>)
    returns (steps: seq<Step>)
    requires m in s.queue && !Busy(s, m.document) && (forall a :: a in s.attempts ==> a < s.nextAttempt)
    ensures var s' := Processed(cfg, s, m, troubles).state;
            Leads(cfg, s, steps, s') && s'.attempts == s.attempts &&
            (Settled(s', m.owner, m.document) <==> !Strands(cfg, LastTry(cfg, s, m, troubles)))
    decreases if m.retries < cfg.maxRetries then cfg.maxRetries - m.retries else 0
  {
    hide Delivered, Progressed, Valid, Run, Exclusive, Apply, Enabled, Settled, Strands;
    var trouble := FirstTrouble(troubles);
    var s' := Delivered(cfg, s, m, trouble);
    DeliveredFacts(cfg, s, m, trouble);
    DeliveryLeads(cfg, s, m, trouble);
    steps := DeliverySteps(cfg, s, m, trouble);
    if Retried(cfg, s, m, trouble.fault) {
      var rest := TaskSettlesIff(cfg, s', NextTry(m), LaterTroubles(troubles));
      LeadsThen(cfg, s, steps, s', rest, Processed(cfg, s', NextTry(m), LaterTroubles(troubles)).state);
      steps := steps + rest;
    }
  }

  /** The database is gone: no load succeeds, neither the run's nor the failure handler's. */
  const OUTAGE := Trouble(RaisesAt(LoadDocument), true, true)

  /** An outage longer than the retries loses the message and leaves everything else, its document too, as it was. */
  lemma {:induction false} OutageStrands(cfg: Config, s: State, m: Message, troubles: seq<Trouble>)
    requires m in s.queue && m.retries <= cfg.maxRetries && cfg.maxRetries - m.retries < |troubles|
    requires forall i :: 0 <= i < |troubles| ==> troubles[i] == OUTAGE
    ensures Processed(cfg, s, m, troubles).state == s.(queue := s.queue - multiset{m})
    ensures Processed(cfg, s, m, troubles).attempts == cfg.maxRetries - m.retries + 1
    decreases cfg.maxRetries - m.retries
  {
    if m.retries < cfg.maxRetries {
      var s' := Delivered(cfg, s, m, OUTAGE);
      OutageStrands(cfg, s', NextTry(m), troubles[1..]);
      assert s'.queue - multiset{NextTry(m)} == s.queue - multiset{m};
    }
  }

  /** A reachable state of this kind: a fresh upload with no message left, that waits until a sweep finds it. */
  lemma UploadStranded(cfg: Config, owner: UserId, original: Original) returns (steps: seq<Step>, s: State)
    requires 0 < cfg.relayBatch
    ensures Leads(cfg, EMPTY, steps, s) && s.queue == multiset{} && s.attempts == map[]
    ensures s.documents == map[0 := Document(owner, original, Pending)] && !Settled(s, owner, 0)
  {
    hide Leads, Processed, LastTry, Delivered, Valid, Run, Exclusive;
    var m, troubles := Message(0, owner, 0), seq(cfg.maxRetries + 1, i => OUTAGE);
    var uploaded: State;
    steps, uploaded := UploadReachesQueue(cfg, owner, original);
    var rest := TaskSettlesIff(cfg, uploaded, m, troubles);
    OutageStrands(cfg, uploaded, m, troubles);
    s := Processed(cfg, uploaded, m, troubles).state;
    LeadsThen(cfg, EMPTY, steps, uploaded, rest, s);
    steps := steps + rest;
  }

  /**
   From any reachable state, a sweep picks up an idle stuck document, and one crash-free message for it settles it
   unless that message strands it too; then the next sweep can pick it up again. The index agrees either way.
   */
  lemma SweepRecovers(cfg: Config, history: seq<Step>, d: DocumentId, troubles: seq<Trouble>)
    requires Valid(cfg, EMPTY, history) && Exclusive(cfg, EMPTY, history)
    requires var s := Run(cfg, EMPTY, history);
             d in s.documents && StuckStatus(s.documents[d].status) && !Busy(s, d)
    ensures var s := Run(cfg, EMPTY, history);
            var m := Message(d, s.documents[d].owner, 0);
            Enabled(cfg, s, Sweep({d})) &&
            var swept := Apply(cfg, s, Sweep({d}));
            m in swept.queue &&
            var s' := Processed(cfg, swept, m, troubles).state;
            (Settled(s', m.owner, d) <==> !Strands(cfg, LastTry(cfg, swept, m, troubles))) &&
            (!Settled(s', m.owner, d) ==> Enabled(cfg, s', Sweep({d})) && !Busy(s', d)) && IndexAgrees(cfg, s')
  {
    hide Processed, LastTry, Strands, Delivered, Valid, Run, Exclusive, RowsBy, PointsBy, RowsFor, PointsFor;
    var s := Run(cfg, EMPTY, history);
    var m := Message(d, s.documents[d].owner, 0);
    var swept := Apply(cfg, s, Sweep({d}));
    ReachableInv(cfg, history);
    assert (set e | e in {d} :: Message(e, s.documents[e].owner, 0)) == {m};
    assert swept.attempts == s.attempts && !Busy(swept, d);
    StepKeeps(cfg, s, Sweep({d}));
    var steps := TaskSettlesIff(cfg, swept, m, troubles);
    RunKeeps(cfg, swept, steps);
  }

  lemma ReachableInv(cfg: Config, history: seq<Step>)
    requires Valid(cfg, EMPTY, history) && Exclusive(cfg, EMPTY, history)
    ensures Inv(cfg, Run(cfg, EMPTY, history))
  {
    assert Inv(cfg, EMPTY);
    RunKeeps(cfg, EMPTY, history);
  }

  // ----------------------------------------------------------------- the code

  /** Mark a document failed, if it is still there; best effort, so it may raise and have done nothing. */
  method FailDocument(stores: Stores, m: Message, raises: bool) returns (ok: bool)
    modifies stores
    ensures ok <==> !raises
    ensures stores.Snapshot() ==
            if raises then old(stores.Snapshot())
            else old(stores.Snapshot()).(documents := WithStatus(old(stores.documents), m.owner, m.document, Failed))
  {
    if raises {
      return false;
    }
    if m.document in stores.documents && stores.documents[m.document].owner == m.owner {
      stores.documents := stores.documents[m.document := stores.documents[m.document].(status := Failed)];
    }
    return true;
  }

  /** What the worker's run leaves, before the Celery task closes it. */
  lemma RunStops(cfg: Config, s: State, m: Message, fault: Fault)
    requires m in s.queue
    ensures var progress := Progressed(cfg, s, m, fault);
            Valid(cfg, s, RunSteps(cfg, s, m, fault)) ==>
              var s' := Run(cfg, s, RunSteps(cfg, s, m, fault));
              match progress.outcome
              case Skipped => s' == s.(queue := s.queue - multiset{m})
              case Unclaimed => s' == s
              case _ => Found(s.documents, m.owner, m.document) && 1 <= progress.taken <= 5 &&
                        s' == Stopped(cfg, s, m, progress.taken)
  {
    hide PointsBy, RowsBy, PointsExcept, RowsExcept, ChunksFor, Apply, Enabled;
    var progress := Progressed(cfg, s, m, fault);
    match progress.outcome {
      case Skipped =>
        ClaimLeads(cfg, s, m);
      case Unclaimed =>
      case _ =>
        ClaimedRun(cfg, s, m, fault);
        PrefixLeads(cfg, s, m, progress.taken);
    }
  }

  lemma DeliveredIs(cfg: Config, s: State, m: Message, trouble: Trouble)
    requires var progress := Progressed(cfg, s, m, trouble.fault);
             progress.outcome !in {Skipped, Unclaimed} ==>
               Found(s.documents, m.owner, m.document) && 1 <= progress.taken <= 5
    ensures var progress, rest := Progressed(cfg, s, m, trouble.fault), s.(queue := s.queue - multiset{m});
            var lost := Lost(cfg, m, progress.outcome, trouble);
            Delivered(cfg, s, m, trouble) ==
            match progress.outcome
            case Skipped => rest
            case Unclaimed => if lost then rest else Raised(cfg, rest, m)
            case _ => Closed(cfg, m, Stopped(cfg, s, m, progress.taken), s.attempts, progress.outcome, lost)
  {
  }

  /** A raised task: ask for a retry while the budget lasts, else Celery's hook marks the document failed. */
  method RetryOrFail(stores: Stores, cfg: Config, m: Message, hookRaises: bool) returns (retried: bool)
    modifies stores
    ensures retried <==> m.retries < cfg.maxRetries
    ensures retried ==> NextTry(m) in stores.queue
    ensures stores.Snapshot() ==
            if cfg.maxRetries <= m.retries && hookRaises then old(stores.Snapshot())
            else Raised(cfg, old(stores.Snapshot()), m)
  {
    if m.retries < cfg.maxRetries {
      stores.queue := stores.queue + multiset{NextTry(m)};
      return true;
    }
    var _ := FailDocument(stores, m, hookRaises);
    return false;
  }

  /** What follows a claimed run: a parse error is permanent, any other error goes to the retry policy. */
  method CloseRun(stores: Stores, cfg: Config, m: Message, outcome: Outcome, trouble: Trouble, a: nat)
    returns (retried: bool)
    requires outcome !in {Skipped, Unclaimed}
    modifies stores
    ensures retried <==> outcome == Aborted && m.retries < cfg.maxRetries
    ensures retried ==> NextTry(m) in stores.queue
    ensures stores.Snapshot() ==
            Closed(cfg, m, old(stores.Snapshot()), old(stores.attempts) - {a}, outcome, Lost(cfg, m, outcome, trouble))
  {
    hide Raised, WithStatus;
    stores.attempts := stores.attempts - {a};
    match outcome {
      case Unparseable =>
        var ok := FailDocument(stores, m, trouble.bodyHandlerRaises);
        if !ok {
          // The handler's own error escapes the body, so the hook tries again.
          ok := FailDocument(stores, m, trouble.hookRaises);
        }
        return false;
      case Aborted =>
        retried := RetryOrFail(stores, cfg, m, trouble.hookRaises);
      case _ =>
        return false;
    }
  }

  /** What follows a delivery that raised before it claimed anything. */
  method CloseUnclaimed(stores: Stores, cfg: Config, m: Message, trouble: Trouble, late: seq<Step>, alone: bool)
    returns (retried: bool, ghost steps: seq<Step>)
    requires m in stores.queue
    modifies stores
    ensures Valid(cfg, old(stores.Snapshot()), steps) && stores.Snapshot() == Run(cfg, old(stores.Snapshot()), steps)
    ensures alone && !Busy(old(stores.Snapshot()), m.document) ==> Exclusive(cfg, old(stores.Snapshot()), steps)
    ensures retried <==> m.retries < cfg.maxRetries
    ensures retried ==> NextTry(m) in stores.queue
    ensures late == [] ==>
              var rest := old(stores.Snapshot()).(queue := old(stores.queue) - multiset{m});
              stores.Snapshot() == if Lost(cfg, m, Unclaimed, trouble) then rest else Raised(cfg, rest, m)
  {
    hide Valid, Run, Exclusive, Raised, Apply, Enabled, WithStatus, Busy, OneAtATime;
    ghost var s, lost := stores.Snapshot(), Lost(cfg, m, Unclaimed, trouble);
    ghost var step := if lost then LoseMessage(m) else DeliverFailure(m);
    steps := stores.PauseUnclaimed(cfg, late, m, alone);
    FailedDelivery(cfg, stores.Snapshot(), m, lost);
    LeadsOn(cfg, s, steps, stores.Snapshot(), step);
    steps := steps + [step];
    stores.queue := stores.queue - multiset{m};
    retried := RetryOrFail(stores, cfg, m, trouble.hookRaises);
  }

  /**
   The Celery task's body with its failure policy, whatever other sessions do meanwhile, `late` between the end of the
   run and the handler's or the retry's own commit; true when it asked to be retried. It takes steps of the protocol
   among theirs, and left alone exactly those of `Delivered`.
   */
  method IngestDocument(stores: Stores, cfg: Config, m: Message, batchSize: nat, trouble: Trouble,
                        meanwhile: seq<seq<Step>>, late: seq<Step>, alone: bool)
    returns (retried: bool, ghost steps: seq<Step>)
    requires m in stores.queue && 0 < batchSize && |meanwhile| == 4
    modifies stores
    ensures Valid(cfg, old(stores.Snapshot()), steps) && stores.Snapshot() == Run(cfg, old(stores.Snapshot()), steps)
    ensures alone && !Busy(old(stores.Snapshot()), m.document) ==> Exclusive(cfg, old(stores.Snapshot()), steps)
    ensures retried ==> m.retries < cfg.maxRetries && NextTry(m) in stores.queue
    ensures meanwhile == QUIET && late == [] && old(stores.nextAttempt !in stores.attempts) ==>
              (retried <==> Retried(cfg, old(stores.Snapshot()), m, trouble.fault)) &&
              stores.Snapshot() == Delivered(cfg, old(stores.Snapshot()), m, trouble)
  {
    hide PointsBy, RowsBy, PointsExcept, RowsExcept, ChunksFor, Valid, Run, Exclusive, Progressed, Raised, Apply,
         Enabled, FullRun, RunSteps, Stopped, Delivered, WithStatus, Closed, Lost;
    ghost var s := stores.Snapshot();
    RunStops(cfg, s, m, trouble.fault);
    var a, outcome := stores.nextAttempt, Skipped;
    outcome, steps := stores.RunIngestion(cfg, m, batchSize, trouble.fault, meanwhile, alone);
    ghost var ended := stores.Snapshot();
    ghost var lost := Lost(cfg, m, outcome, trouble);
    if meanwhile == QUIET {
      DeliveredIs(cfg, s, m, trouble);
    }
    if outcome == Skipped || outcome == Undone {
      QuietNeverUndone(cfg, s, m, trouble.fault);
      return false, steps;
    }
    if outcome == Unclaimed {
      NothingRun(cfg, s);
      retried, steps := CloseUnclaimed(stores, cfg, m, trouble, late, alone);
      return;
    }
    steps := stores.Pause(cfg, late, a, stores.attempts[a], alone, s, steps);
    ended := stores.Snapshot();
    EndingCloses(cfg, ended, a, outcome, lost);
    LeadsOn(cfg, s, steps, ended, Ending(cfg, m, a, outcome, lost)[0]);
    steps := steps + [Ending(cfg, m, a, outcome, lost)[0]];
    retried := CloseRun(stores, cfg, m, outcome, trouble, a);
    if meanwhile == QUIET && late == [] && s.nextAttempt !in s.attempts {
      StoppedFields(cfg, s, m, Progressed(cfg, s, m, trouble.fault).taken);
      assert ended.attempts - {a} == s.attempts;
    }
  }

  lemma NothingRun(cfg: Config, s: State)
    requires Valid(cfg, s, [])
    ensures Run(cfg, s, []) == s
  {
  }

  /** Left alone, a run whose document was there when it claimed it finds it there when it commits. */
  lemma QuietNeverUndone(cfg: Config, s: State, m: Message, fault: Fault)
    ensures Progressed(cfg, s, m, fault).outcome != Undone
  {
    hide ChunksFor;
  }

  /** The broker's side: deliver again as long as the Celery task asks for it, waiting in between. */
  method ProcessMessage(stores: Stores, cfg: Config, first: Message, batchSize: nat, troubles: seq<Trouble>)
    returns (attempts: nat, backoff: nat)
    requires first in stores.queue && first.retries == 0 && 0 < batchSize
    requires forall a :: a in stores.attempts ==> a < stores.nextAttempt
    modifies stores
    ensures var result := Processed(cfg, old(stores.Snapshot()), first, troubles);
            stores.Snapshot() == result.state && attempts == result.attempts && backoff == result.backoff
    ensures 1 <= attempts <= cfg.maxRetries + 1
    ensures backoff == Power(2, attempts - 1) - 1 <= Power(2, cfg.maxRetries) - 1
  {
    hide Delivered, Progressed;
    ghost var start := stores.Snapshot();
    WaitsAddUp(cfg, start, first, troubles);
    var m, remaining := first, troubles;
    attempts, backoff := 0, 0;
    var again := true;
    while again
      invariant again ==> m in stores.queue && (forall a :: a in stores.attempts ==> a < stores.nextAttempt)
      invariant var whole := Processed(cfg, start, first, troubles);
                var rest := Processed(cfg, stores.Snapshot(), m, remaining);
                if again
                then whole == TaskResult(rest.state, attempts + rest.attempts, backoff + rest.backoff)
                else whole == TaskResult(stores.Snapshot(), attempts, backoff)
      decreases again, if m.retries < cfg.maxRetries then cfg.maxRetries - m.retries else 0
    {
      var trouble := FirstTrouble(remaining);
      DeliveredFacts(cfg, stores.Snapshot(), m, trouble);
      ghost var steps: seq<Step>;
      again, steps := IngestDocument(stores, cfg, m, batchSize, trouble, QUIET, [], true);
      attempts := attempts + 1;
      if again {
        backoff := backoff + BackoffSeconds(m.retries);
        m, remaining := NextTry(m), LaterTroubles(remaining);
      }
    }
  }
}
