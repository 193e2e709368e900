/**
 Concurrent uploads and retries over one table with a unique (owner, content hash) constraint. Each call is a
 sequence of awaits, and calls interleave freely between them.
 */
module Uploads {
  import opened Shared

  type DocumentId = nat
  type CallId = nat

  /** What the unique constraint covers; also the content-addressed storage key. */
  datatype ContentKey = ContentKey(owner: nat, sha: string)

  datatype Document = Document(content: ContentKey, status: DocumentStatus)

  /** How an upload answers: the new document, the existing one, or the unexpected third case. */
  datatype Answer = Created(document: DocumentId) | Duplicate(document: DocumentId) | NoWinner

  datatype Call =
    | Checking(content: ContentKey)
    | Storing(content: ContentKey)
    | Inserting(content: ContentKey)
    | LostRace(content: ContentKey)
    | Answered(content: ContentKey, answer: Answer)
    | RetryReading(document: DocumentId)
    | RetryWriting(document: DocumentId)
    | RetryAnswered(document: DocumentId, accepted: bool)

  /** The table, the upload events in order, the object store, and every call made so far. */
  datatype State = State(
    documents: map<DocumentId, Document>,
    uploadEvents: seq<DocumentId>,
    objects: set<ContentKey>,
    calls: map<CallId, Call>,
    nextDocument: nat)

  const EMPTY := State(map[], [], {}, map[], 0)

  datatype Step =
    | BeginUpload(call: CallId, content: ContentKey)
    | BeginRetry(call: CallId, document: DocumentId)
    | Advance(call: CallId)
    | WorkerSets(document: DocumentId, status: DocumentStatus)
    | DropObject(document: DocumentId)
    | Delete(document: DocumentId)

  predicate Holds(documents: map<DocumentId, Document>, content: ContentKey, d: DocumentId) {
    d in documents && documents[d].content == content
  }

  ghost predicate Taken(documents: map<DocumentId, Document>, content: ContentKey) {
    exists d :: Holds(documents, content, d)
  }

  predicate Enabled(s: State, step: Step) {
    match step
    case BeginUpload(c, _) => c !in s.calls
    case BeginRetry(c, d) => c !in s.calls && d in s.documents
    case Advance(c) =>
      c in s.calls && !s.calls[c].Answered? && !s.calls[c].RetryAnswered? &&
      (s.calls[c].RetryWriting? || s.calls[c].RetryReading? ==> s.calls[c].document in s.documents)
    case WorkerSets(d, _) => d in s.documents
    case DropObject(d) => d in s.documents
    case Delete(d) => d in s.documents
  }

  /** The lookup by content key, as a duplicate is answered. */
  ghost function Lookup(documents: map<DocumentId, Document>, content: ContentKey): Answer {
    if Taken(documents, content) then
      var d :| Holds(documents, content, d);
      Duplicate(d)
    else NoWinner
  }

  /** One await of a call. */
  ghost function ApplyAdvance(s: State, c: CallId): State
    requires Enabled(s, Advance(c))
  {
    match s.calls[c]
    case Checking(content) =>
      // The fast path before the storage write.
      if Taken(s.documents, content) then s.(calls := s.calls[c := Answered(content, Lookup(s.documents, content))])
      else s.(calls := s.calls[c := Storing(content)])
    case Storing(content) =>
      s.(objects := s.objects + {content}, calls := s.calls[c := Inserting(content)])
    case Inserting(content) =>
      // One transaction: the row and its event, or the constraint fires and both roll back.
      if Taken(s.documents, content) then s.(calls := s.calls[c := LostRace(content)])
      else
        s.(documents := s.documents[s.nextDocument := Document(content, Pending)],
           uploadEvents := s.uploadEvents + [s.nextDocument],
           calls := s.calls[c := Answered(content, Created(s.nextDocument))],
           nextDocument := s.nextDocument + 1)
    case LostRace(content) =>
      s.(calls := s.calls[c := Answered(content, Lookup(s.documents, content))])
    case RetryReading(d) =>
      s.(calls := s.calls[c := if s.documents[d].status == Failed then RetryWriting(d) else RetryAnswered(d, false)])
    case RetryWriting(d) =>
      // The commit does not look at the status again.
      s.(documents := s.documents[d := s.documents[d].(status := Pending)],
         uploadEvents := s.uploadEvents + [d],
         calls := s.calls[c := RetryAnswered(d, true)])
  }

  ghost function Apply(s: State, step: Step): State
    requires Enabled(s, step)
  {
    match step
    case BeginUpload(c, content) => s.(calls := s.calls[c := Checking(content)])
    case BeginRetry(c, d) => s.(calls := s.calls[c := RetryReading(d)])
    case Advance(c) => ApplyAdvance(s, c)
    case WorkerSets(d, status) => s.(documents := s.documents[d := s.documents[d].(status := status)])
    // A delete drops the original first and the row after it.
    case DropObject(d) => s.(objects := s.objects - {s.documents[d].content})
    case Delete(d) => s.(documents := s.documents - {d})
  }

  ghost predicate Valid(s: State, steps: seq<Step>)
    decreases |steps|
  {
    steps == [] || (Enabled(s, steps[0]) && Valid(Apply(s, steps[0]), steps[1..]))
  }

  ghost function Run(s: State, steps: seq<Step>): State
    requires Valid(s, steps)
    decreases |steps|
  {
    if steps == [] then s else Run(Apply(s, steps[0]), steps[1..])
  }

  // ---------------------------------------------------------------- measures

  /** How often a document occurs among the upload events. */
  function Occurrences(events: seq<DocumentId>, d: DocumentId): nat {
    if events == [] then 0
    else Occurrences(events[..|events| - 1], d) + if events[|events| - 1] == d then 1 else 0
  }

  /** The retries of a document that were accepted. */
  function Accepted(calls: map<CallId, Call>, d: DocumentId): set<CallId> {
    set c | c in calls && calls[c] == RetryAnswered(d, true)
  }

  // -------------------------------------------------------------- invariants

  /** The unique constraint. */
  predicate OnePerContent(s: State) {
    forall d, e :: d in s.documents && e in s.documents && s.documents[d].content == s.documents[e].content ==> d == e
  }

  predicate RetryOf(call: Call) {
    call.RetryReading? || call.RetryWriting? || call.RetryAnswered?
  }

  predicate FreshDocuments(s: State) {
    (forall d :: d in s.documents ==> d < s.nextDocument) &&
    (forall i :: 0 <= i < |s.uploadEvents| ==> s.uploadEvents[i] < s.nextDocument) &&
    (forall c :: c in s.calls && RetryOf(s.calls[c]) ==> s.calls[c].document < s.nextDocument)
  }

  /** Every document's original is in the object store. */
  predicate Stored(s: State) {
    forall d :: d in s.documents ==> s.documents[d].content in s.objects
  }

  /** An answer names the document that holds the content; a lost race has a winner; originals are stored first. */
  ghost predicate CallTrue(s: State, call: Call) {
    match call
    case Answered(content, Created(d)) => Holds(s.documents, content, d)
    case Answered(content, Duplicate(d)) => Holds(s.documents, content, d)
    case Answered(_, NoWinner) => false
    case LostRace(content) => Taken(s.documents, content) && content in s.objects
    case Inserting(content) => content in s.objects
    case _ => true
  }

  ghost predicate AnswersTrue(s: State) {
    forall c :: c in s.calls ==> CallTrue(s, s.calls[c])
  }

  /** Each document has one upload event for its creation and one for each accepted retry. */
  predicate EventsCounted(s: State) {
    forall d :: d in s.documents ==> Occurrences(s.uploadEvents, d) == 1 + |Accepted(s.calls, d)|
  }

  /** What holds of the table however calls and deletes interleave. */
  predicate Table(s: State) {
    OnePerContent(s) && FreshDocuments(s) && EventsCounted(s)
  }

  /** What holds as long as nothing is deleted. */
  ghost predicate Inv(s: State) {
    Table(s) && Stored(s) && AnswersTrue(s)
  }

  /** No step of a delete. */
  predicate Keeps(step: Step) {
    !step.DropObject? && !step.Delete?
  }

  /** Documents keep their content and none goes away. */
  predicate Grows(s: State, s': State) {
    s.nextDocument <= s'.nextDocument && s.objects <= s'.objects &&
    forall d :: d in s.documents ==> d in s'.documents && s'.documents[d].content == s.documents[d].content
  }

  lemma CallStaysTrue(s: State, s': State, call: Call)
    requires Grows(s, s') && CallTrue(s, call)
    ensures CallTrue(s', call)
  {
    if call.LostRace? {
      var d :| Holds(s.documents, call.content, d);
      assert Holds(s'.documents, call.content, d);
    }
  }

  /** A step moves one call; the others stay true because documents only grow. */
  lemma AnswersStayTrue(s: State, s': State, c: CallId, call: Call)
    requires AnswersTrue(s) && Grows(s, s') && s'.calls == s.calls[c := call] && CallTrue(s', call)
    ensures AnswersTrue(s')
  {
    forall x | x in s'.calls
      ensures CallTrue(s', s'.calls[x])
    {
      if x != c {
        CallStaysTrue(s, s', s.calls[x]);
      }
    }
  }

  // ------------------------------------------------------------ event counts

  predicate IsAccepted(call: Call) {
    call.RetryAnswered? && call.accepted
  }

  lemma AcceptedAfter(calls: map<CallId, Call>, c: CallId, call: Call, d: DocumentId)
    requires c !in calls || !IsAccepted(calls[c])
    ensures |Accepted(calls[c := call], d)| == |Accepted(calls, d)| + if call == RetryAnswered(d, true) then 1 else 0
  {
    assert c !in Accepted(calls, d);
    if call == RetryAnswered(d, true) {
      assert Accepted(calls[c := call], d) == Accepted(calls, d) + {c};
    } else {
      assert Accepted(calls[c := call], d) == Accepted(calls, d);
    }
  }

  lemma {:induction false} NeverSeen(events: seq<DocumentId>, d: DocumentId)
    requires forall i :: 0 <= i < |events| ==> events[i] != d
    ensures Occurrences(events, d) == 0
  {
    if events != [] {
      NeverSeen(events[..|events| - 1], d);
    }
  }

  lemma EventAppended(events: seq<DocumentId>, x: DocumentId, d: DocumentId)
    ensures Occurrences(events + [x], d) == Occurrences(events, d) + if x == d then 1 else 0
  {
    assert (events + [x])[..|events|] == events;
  }

  /** No event and no accepted retry names a document that does not exist yet. */
  lemma NothingYet(s: State, d: DocumentId)
    requires FreshDocuments(s) && s.nextDocument <= d
    ensures Occurrences(s.uploadEvents, d) == 0 && Accepted(s.calls, d) == {}
  {
    NeverSeen(s.uploadEvents, d);
  }

  // ------------------------------------------------------- the table's steps

  /** The await that inserts: the constraint decides, and row and event appear together. */
  lemma InsertKeepsTable(s: State, c: CallId)
    requires Table(s) && Enabled(s, Advance(c)) && s.calls[c].Inserting?
    requires !Taken(s.documents, s.calls[c].content)
    ensures Table(ApplyAdvance(s, c))
  {
    hide Occurrences, Accepted;
    var s', content, n := ApplyAdvance(s, c), s.calls[c].content, s.nextDocument;
    var call := Answered(content, Created(n));
    assert forall d :: d in s.documents ==> !Holds(s.documents, content, d);
    NothingYet(s, n);
    forall d | d in s'.documents
      ensures Occurrences(s'.uploadEvents, d) == 1 + |Accepted(s'.calls, d)|
    {
      EventAppended(s.uploadEvents, n, d);
      AcceptedAfter(s.calls, c, call, d);
    }
  }

  lemma RetryKeepsTable(s: State, c: CallId)
    requires Table(s) && Enabled(s, Advance(c)) && s.calls[c].RetryWriting?
    ensures Table(ApplyAdvance(s, c))
  {
    hide Occurrences, Accepted;
    var s', d := ApplyAdvance(s, c), s.calls[c].document;
    forall e | e in s'.documents
      ensures Occurrences(s'.uploadEvents, e) == 1 + |Accepted(s'.calls, e)|
    {
      EventAppended(s.uploadEvents, d, e);
      AcceptedAfter(s.calls, c, RetryAnswered(d, true), e);
    }
  }

  /** A step that moves one call without touching rows or events. */
  lemma CallKeepsTable(s: State, s': State, c: CallId, call: Call)
    requires Table(s) && s' == s.(calls := s.calls[c := call], objects := s'.objects)
    requires c !in s.calls || !IsAccepted(s.calls[c])
    requires !IsAccepted(call) && (RetryOf(call) ==> call.document < s.nextDocument)
    ensures Table(s')
  {
    hide Occurrences, Accepted;
    forall e | e in s'.documents
      ensures Occurrences(s'.uploadEvents, e) == 1 + |Accepted(s'.calls, e)|
    {
      AcceptedAfter(s.calls, c, call, e);
    }
  }

  /** Every step keeps the table, deletes included. */
  lemma StepKeepsTable(s: State, step: Step)
    requires Table(s) && Enabled(s, step)
    ensures Table(Apply(s, step))
  {
    hide Occurrences, Accepted, Lookup;
    match step
    case BeginUpload(c, content) => CallKeepsTable(s, Apply(s, step), c, Checking(content));
    case BeginRetry(c, d) => CallKeepsTable(s, Apply(s, step), c, RetryReading(d));
    case Advance(c) =>
      if s.calls[c].Inserting? && !Taken(s.documents, s.calls[c].content) {
        InsertKeepsTable(s, c);
      } else if s.calls[c].RetryWriting? {
        RetryKeepsTable(s, c);
      } else {
        CallKeepsTable(s, Apply(s, step), c, Apply(s, step).calls[c]);
      }
    case _ =>
  }

  lemma {:induction false} RunKeepsTable(s: State, steps: seq<Step>)
    requires Table(s) && Valid(s, steps)
    ensures Table(Run(s, steps))
    decreases |steps|
  {
    hide Table, Apply, Enabled;
    if steps != [] {
      StepKeepsTable(s, steps[0]);
      RunKeepsTable(Apply(s, steps[0]), steps[1..]);
    }
  }

  /** Over every run, deletes included: one document per content, and one upload event more than accepted retries. */
  lemma TableAlwaysHolds(steps: seq<Step>)
    requires Valid(EMPTY, steps)
    ensures OnePerContent(Run(EMPTY, steps)) && EventsCounted(Run(EMPTY, steps))
  {
    RunKeepsTable(EMPTY, steps);
  }

  // ----------------------------------------------- steps that delete nothing

  /** An await keeps every answer true and every original stored. */
  lemma AdvanceKeeps(s: State, c: CallId)
    requires Inv(s) && Enabled(s, Advance(c))
    ensures Stored(ApplyAdvance(s, c)) && AnswersTrue(ApplyAdvance(s, c))
  {
    hide Occurrences, Accepted, EventsCounted;
    var s', call := ApplyAdvance(s, c), s.calls[c];
    assert CallTrue(s, call);
    if call.Inserting? && !Taken(s.documents, call.content) {
      assert forall d :: d in s.documents ==> d != s.nextDocument;
    }
    AnswersStayTrue(s, s', c, s'.calls[c]);
  }

  lemma StepKeeps(s: State, step: Step)
    requires Inv(s) && Enabled(s, step) && Keeps(step)
    ensures Inv(Apply(s, step))
  {
    hide ApplyAdvance, Table, Occurrences, Accepted;
    StepKeepsTable(s, step);
    match step
    case BeginUpload(c, content) => AnswersStayTrue(s, Apply(s, step), c, Checking(content));
    case BeginRetry(c, d) => AnswersStayTrue(s, Apply(s, step), c, RetryReading(d));
    case Advance(c) => AdvanceKeeps(s, c);
    case WorkerSets(d, status) =>
      var s' := Apply(s, step);
      forall c | c in s'.calls
        ensures CallTrue(s', s'.calls[c])
      {
        CallStaysTrue(s, s', s.calls[c]);
      }
  }

  // ------------------------------------------------------------ the theorems

  /** However uploads, retries and the worker interleave, as long as nothing is deleted, the table stays consistent. */
  lemma {:induction false} RunKeeps(s: State, steps: seq<Step>)
    requires Inv(s) && Valid(s, steps) && forall i :: 0 <= i < |steps| ==> Keeps(steps[i])
    ensures Inv(Run(s, steps))
    decreases |steps|
  {
    hide Inv, Apply, Enabled;
    if steps != [] {
      StepKeeps(s, steps[0]);
      RunKeeps(Apply(s, steps[0]), steps[1..]);
    }
  }

  /**
   Every finished upload of the same content reports the same document, whichever call created it; the branch with
   no winner is not reached; and every document has exactly one upload event more than its accepted retries.
   */
  lemma UploadsAgree(steps: seq<Step>)
    requires Valid(EMPTY, steps) && forall i :: 0 <= i < |steps| ==> Keeps(steps[i])
    ensures var s := Run(EMPTY, steps);
            (forall c, c' :: c in s.calls && c' in s.calls && s.calls[c].Answered? && s.calls[c'].Answered? &&
                             s.calls[c].content == s.calls[c'].content ==>
              !s.calls[c].answer.NoWinner? && !s.calls[c'].answer.NoWinner? &&
              s.calls[c].answer.document == s.calls[c'].answer.document)
    ensures OnePerContent(Run(EMPTY, steps)) && EventsCounted(Run(EMPTY, steps))
    ensures var s := Run(EMPTY, steps); forall d :: d in s.documents ==> s.documents[d].content in s.objects
  {
    assert Inv(EMPTY);
    RunKeeps(EMPTY, steps);
    var s := Run(EMPTY, steps);
    hide Run, Valid, Occurrences, Accepted;
    forall c, c' | c in s.calls && c' in s.calls && s.calls[c].Answered? && s.calls[c'].Answered? &&
                   s.calls[c].content == s.calls[c'].content
      ensures !s.calls[c].answer.NoWinner? && !s.calls[c'].answer.NoWinner? &&
              s.calls[c].answer.document == s.calls[c'].answer.document
    {
      assert CallTrue(s, s.calls[c]) && CallTrue(s, s.calls[c']);
    }
  }

  lemma {:induction false} RunOn(s: State, steps: seq<Step>, step: Step)
    requires Valid(s, steps) && Enabled(Run(s, steps), step)
    ensures Valid(s, steps + [step]) && Run(s, steps + [step]) == Apply(Run(s, steps), step)
    decreases |steps|
  {
    hide Apply, Enabled;
    var all := steps + [step];
    if steps == [] {
      assert all[1..] == [];
    } else {
      assert all[0] == steps[0] && all[1..] == steps[1..] + [step];
      RunOn(Apply(s, steps[0]), steps[1..], step);
    }
  }

  lemma Take(steps: seq<Step>, s: State, step: Step) returns (steps': seq<Step>, s': State)
    requires Valid(EMPTY, steps) && Run(EMPTY, steps) == s && Enabled(s, step)
    ensures Valid(EMPTY, steps') && Run(EMPTY, steps') == s' == Apply(s, step)
    ensures steps' == steps + [step]
  {
    steps', s' := steps + [step], Apply(s, step);
    RunOn(EMPTY, steps, step);
  }
}
