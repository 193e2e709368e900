/**
 The upload and retry calls as code over shared tables. Between any two awaits of a call, other sessions may take any of
 their own steps; the calls are proved to be runs of the protocol whatever those are.
 */
module UploadService {
  import opened Shared
  import opened Uploads

  lemma {:induction false} RunJoin(s: State, first: seq<Step>, second: seq<Step>)
    requires Valid(s, first) && Valid(Run(s, first), second)
    ensures Valid(s, first + second) && Run(s, first + second) == Run(Run(s, first), second)
    decreases |first|
  {
    hide Apply, Enabled;
    var all := first + second;
    if first == [] {
      assert all == second;
    } else {
      assert all[0] == first[0] && all[1..] == first[1..] + second;
      RunJoin(Apply(s, first[0]), first[1..], second);
    }
  }

  /** One more step of the call itself. */
  lemma Continue(s: State, steps: seq<Step>, now: State, step: Step)
    requires Valid(s, steps) && now == Run(s, steps) && Inv(now) && Enabled(now, step) && Keeps(step)
    ensures Valid(s, steps + [step]) && Run(s, steps + [step]) == Apply(now, step) && Inv(Apply(now, step))
  {
    RunOn(s, steps, step);
    StepKeeps(now, step);
  }

  /** Whose step it is: a call's own begin or await, or no call's. */
  predicate Moves(step: Step, c: CallId) {
    match step
    case BeginUpload(x, _) => x == c
    case BeginRetry(x, _) => x == c
    case Advance(x) => x == c
    case _ => false
  }

  datatype RetryAnswer = NotFound | Refused | Queued

  class Library {
    var documents: map<DocumentId, Document>
    var uploadEvents: seq<DocumentId>
    var objects: set<ContentKey>
    var calls: map<CallId, Call>
    var nextDocument: nat

    function Snapshot(): State
      reads this
    {
      State(documents, uploadEvents, objects, calls, nextDocument)
    }

    constructor ()
      ensures Snapshot() == EMPTY
    {
      documents, uploadEvents, objects, calls, nextDocument := map[], [], {}, map[], 0;
    }

    /** The row with this content, found through the unique key. */
    method FindByContent(content: ContentKey) returns (answer: Answer)
      requires OnePerContent(Snapshot())
      ensures answer == Lookup(documents, content)
      ensures !answer.Created? && (answer.Duplicate? <==> Taken(documents, content))
    {
      if d :| d in documents && documents[d].content == content {
        assert Holds(documents, content, d);
        return Duplicate(d);
      } else {
        return NoWinner;
      }
    }

    /** One transaction: the row and its event, or nothing when the constraint fires. */
    method InsertDocument(content: ContentKey) returns (answer: Answer)
      requires OnePerContent(Snapshot())
      modifies `documents, `uploadEvents, `nextDocument
      ensures answer == if old(Taken(documents, content)) then NoWinner else Created(old(nextDocument))
      ensures Snapshot() ==
              if old(Taken(documents, content)) then old(Snapshot())
              else old(Snapshot()).(documents := old(documents)[old(nextDocument) := Document(content, Pending)],
                                    uploadEvents := old(uploadEvents) + [old(nextDocument)],
                                    nextDocument := old(nextDocument) + 1)
    {
      var existing := FindByContent(content);
      if existing.Duplicate? {
        return NoWinner;
      }
      answer := Created(nextDocument);
      documents := documents[nextDocument := Document(content, Pending)];
      uploadEvents := uploadEvents + [nextDocument];
      nextDocument := nextDocument + 1;
    }

    /** One await of another session's call. */
    method AdvanceOther(c: CallId)
      requires Inv(Snapshot()) && Enabled(Snapshot(), Advance(c))
      modifies this
      ensures Snapshot() == Apply(old(Snapshot()), Advance(c))
    {
      hide Inv, Lookup;
      UniqueContent(Snapshot());
      match calls[c] {
        case Checking(content) =>
          var existing := FindByContent(content);
          calls := calls[c := if existing.Duplicate? then Answered(content, existing) else Storing(content)];
        case Storing(content) =>
          objects, calls := objects + {content}, calls[c := Inserting(content)];
        case Inserting(content) =>
          var answer := InsertDocument(content);
          calls := calls[c := if answer.Created? then Answered(content, answer) else LostRace(content)];
        case LostRace(content) =>
          var winner := FindByContent(content);
          calls := calls[c := Answered(content, winner)];
        case RetryReading(d) =>
          calls := calls[c := if documents[d].status == Failed then RetryWriting(d) else RetryAnswered(d, false)];
        case RetryWriting(d) =>
          documents := documents[d := documents[d].(status := Pending)];
          uploadEvents, calls := uploadEvents + [d], calls[c := RetryAnswered(d, true)];
      }
    }

    /**
     What other sessions do while this call awaits: of the steps offered, those that are possible just then and are not
     this call's own. Deletes are left to the delete endpoint.
     */
    method Interleave(others: seq<Step>, mine: CallId) returns (ghost taken: seq<Step>)
      requires Inv(Snapshot())
      modifies this
      ensures Inv(Snapshot()) && Valid(old(Snapshot()), taken) && Snapshot() == Run(old(Snapshot()), taken)
      ensures NothingDeleted(taken)
      ensures mine in calls <==> mine in old(calls)
      ensures mine in calls ==> calls[mine] == old(calls)[mine]
    {
      hide Inv, Apply, Valid, Run, Enabled;
      taken := [];
      NoSteps(Snapshot());
      for i := 0 to |others|
        invariant Inv(Snapshot()) && Valid(old(Snapshot()), taken) && Snapshot() == Run(old(Snapshot()), taken)
        invariant NothingDeleted(taken)
        invariant mine in calls <==> mine in old(calls)
        invariant mine in calls ==> calls[mine] == old(calls)[mine]
      {
        var step := others[i];
        if Enabled(Snapshot(), step) && !Moves(step, mine) && Keeps(step) {
          Continue(old(Snapshot()), taken, Snapshot(), step);
          OthersCall(Snapshot(), step, mine);
          PerformOther(step);
          taken := taken + [step];
        }
      }
    }

    method PerformOther(step: Step)
      requires Inv(Snapshot()) && Enabled(Snapshot(), step) && Keeps(step)
      modifies this
      ensures Snapshot() == Apply(old(Snapshot()), step)
    {
      hide Inv;
      match step {
        case BeginUpload(c, content) => calls := calls[c := Checking(content)];
        case BeginRetry(c, d) => calls := calls[c := RetryReading(d)];
        case Advance(c) => AdvanceOther(c);
        case WorkerSets(d, status) => documents := documents[d := documents[d].(status := status)];
      }
    }

    /**
     Upload, with whatever other sessions do at its awaits: a run of the protocol in which this call answers with the
     one document that holds the content, the winner's if it lost a race.
     */
    method Upload(content: ContentKey, mine: CallId, meanwhile: seq<seq<Step>>)
      returns (answer: Answer, ghost steps: seq<Step>)
      requires Inv(Snapshot()) && mine !in calls && |meanwhile| == 4
      modifies this
      ensures Valid(old(Snapshot()), steps) && Snapshot() == Run(old(Snapshot()), steps) && NothingDeleted(steps)
      ensures Inv(Snapshot())
      ensures mine in calls && calls[mine] == Answered(content, answer)
      ensures !answer.NoWinner? && Holds(documents, content, answer.document) && content in objects
      ensures old(Taken(documents, content)) ==> answer.Duplicate?
    {
      hide Inv, Apply, Valid, Run, Lookup, Enabled, Taken, Holds;
      ghost var s := Snapshot();
      Begun(s, mine, content);
      NoSteps(s);
      Continue(s, [], s, BeginUpload(mine, content));
      calls := calls[mine := Checking(content)];
      steps := Pause(meanwhile[0], mine, s, [] + [BeginUpload(mine, content)]);
      // Fast path: skip the storage write when the content is already held.
      Checked(Snapshot(), mine, content);
      Continue(s, steps, Snapshot(), Advance(mine));
      answer := FindByContent(content);
      if answer.Duplicate? {
        calls := calls[mine := Answered(content, answer)];
        steps := steps + [Advance(mine)];
        Truthful(Snapshot(), mine);
        return;
      }
      calls := calls[mine := Storing(content)];
      steps := Pause(meanwhile[1], mine, s, steps + [Advance(mine)]);
      StoreApplied(Snapshot(), mine, content);
      Continue(s, steps, Snapshot(), Advance(mine));
      objects, calls := objects + {content}, calls[mine := Inserting(content)];
      steps := Pause(meanwhile[2], mine, s, steps + [Advance(mine)]);
      TakenStays(s, steps, content);
      answer, steps := InsertOrFindWinner(content, mine, meanwhile[3], s, steps);
      Truthful(Snapshot(), mine);
    }

    /** The insert's transaction; losing the race on the unique constraint, answer with the winner. */
    method InsertOrFindWinner(content: ContentKey, mine: CallId, meanwhile: seq<Step>,
                              ghost s: State, ghost before: seq<Step>)
      returns (answer: Answer, ghost steps: seq<Step>)
      requires Inv(Snapshot()) && Valid(s, before) && Snapshot() == Run(s, before) && NothingDeleted(before)
      requires mine in calls && calls[mine] == Inserting(content)
      modifies this
      ensures Valid(s, steps) && Snapshot() == Run(s, steps) && NothingDeleted(steps) && Inv(Snapshot())
      ensures mine in calls && calls[mine] == Answered(content, answer)
      ensures answer.Created? ==> !old(Taken(documents, content))
    {
      hide Inv, Apply, Valid, Run, Lookup, Enabled, Taken;
      Inserted(Snapshot(), mine, content);
      Continue(s, before, Snapshot(), Advance(mine));
      answer := InsertDocument(content);
      if answer.Created? {
        calls := calls[mine := Answered(content, answer)];
        steps := before + [Advance(mine)];
        return;
      }
      calls := calls[mine := LostRace(content)];
      steps := Pause(meanwhile, mine, s, before + [Advance(mine)]);
      Lost(Snapshot(), mine, content);
      Continue(s, steps, Snapshot(), Advance(mine));
      answer := FindByContent(content);
      calls := calls[mine := Answered(content, answer)];
      steps := steps + [Advance(mine)];
    }

    /** An await: other sessions go on, and the run so far grows by what they did. */
    method Pause(others: seq<Step>, mine: CallId, ghost s: State, ghost steps: seq<Step>) returns (ghost all: seq<Step>)
      requires Inv(Snapshot()) && Valid(s, steps) && Snapshot() == Run(s, steps) && NothingDeleted(steps)
      requires mine in calls
      modifies this
      ensures Inv(Snapshot()) && Valid(s, all) && Snapshot() == Run(s, all) && NothingDeleted(all)
      ensures mine in calls && calls[mine] == old(calls)[mine]
    {
      hide Inv, Valid, Run;
      ghost var more := Interleave(others, mine);
      RunJoin(s, steps, more);
      all := steps + more;
    }

    /** Retry: not found, or refused unless the document was failed when read; else it is queued once more. */
    method Retry(d: DocumentId, mine: CallId, meanwhile: seq<Step>)
      returns (answer: RetryAnswer, ghost steps: seq<Step>)
      requires Inv(Snapshot()) && mine !in calls
      modifies this
      ensures Valid(old(Snapshot()), steps) && Snapshot() == Run(old(Snapshot()), steps) && NothingDeleted(steps)
      ensures Inv(Snapshot())
      ensures answer == (if d !in old(documents) then NotFound
                         else if old(documents)[d].status == Failed then Queued else Refused)
      ensures answer == NotFound ==> Snapshot() == old(Snapshot())
      ensures answer != NotFound ==> mine in calls && calls[mine] == RetryAnswered(d, answer == Queued)
      ensures answer == Queued ==> d in documents && documents[d].status == Pending && uploadEvents != [] &&
                                   uploadEvents[|uploadEvents| - 1] == d
    {
      hide Inv, Apply, Valid, Run, Enabled;
      ghost var s := Snapshot();
      NoSteps(s);
      if d !in documents {
        return NotFound, [];
      }
      RetryBegun(s, mine, d);
      Continue(s, [], s, BeginRetry(mine, d));
      calls := calls[mine := RetryReading(d)];
      steps := [] + [BeginRetry(mine, d)];
      RetryRead(Snapshot(), mine, d);
      Continue(s, steps, Snapshot(), Advance(mine));
      if documents[d].status != Failed {
        calls := calls[mine := RetryAnswered(d, false)];
        steps := steps + [Advance(mine)];
        return Refused, steps;
      }
      calls := calls[mine := RetryWriting(d)];
      steps := Pause(meanwhile, mine, s, steps + [Advance(mine)]);
      DocumentsStay(s, steps, d);
      RetryWritten(Snapshot(), mine, d);
      Continue(s, steps, Snapshot(), Advance(mine));
      documents := documents[d := documents[d].(status := Pending)];
      uploadEvents, calls := uploadEvents + [d], calls[mine := RetryAnswered(d, true)];
      steps := steps + [Advance(mine)];
      return Queued, steps;
    }
  }

  predicate NothingDeleted(steps: seq<Step>) {
    forall i :: 0 <= i < |steps| ==> Keeps(steps[i])
  }

  lemma UniqueContent(s: State)
    requires Inv(s)
    ensures OnePerContent(s)
  {
  }

  lemma NoSteps(s: State)
    ensures Valid(s, []) && Run(s, []) == s
  {
  }

  lemma Begun(s: State, c: CallId, content: ContentKey)
    requires c !in s.calls
    ensures Enabled(s, BeginUpload(c, content))
    ensures Apply(s, BeginUpload(c, content)) == s.(calls := s.calls[c := Checking(content)])
  {
  }

  /** A step of another session leaves this call where it is. */
  lemma OthersCall(s: State, step: Step, mine: CallId)
    requires Enabled(s, step) && !Moves(step, mine)
    ensures var s' := Apply(s, step);
            (mine in s'.calls <==> mine in s.calls) && (mine in s.calls ==> s'.calls[mine] == s.calls[mine])
  {
  }

  // ------------------------------------------------------ one await at a time

  lemma Checked(s: State, c: CallId, content: ContentKey)
    requires c in s.calls && s.calls[c] == Checking(content) && Inv(s)
    ensures Enabled(s, Advance(c)) && OnePerContent(s)
    ensures Apply(s, Advance(c)) ==
            s.(calls := s.calls[c := if Taken(s.documents, content) then Answered(content, Lookup(s.documents, content))
                                     else Storing(content)])
  {
    hide Lookup;
  }

  lemma StoreApplied(s: State, c: CallId, content: ContentKey)
    requires c in s.calls && s.calls[c] == Storing(content)
    ensures Enabled(s, Advance(c)) &&
            Apply(s, Advance(c)) == s.(objects := s.objects + {content}, calls := s.calls[c := Inserting(content)])
  {
  }

  lemma Inserted(s: State, c: CallId, content: ContentKey)
    requires c in s.calls && s.calls[c] == Inserting(content) && Inv(s)
    ensures Enabled(s, Advance(c)) && OnePerContent(s)
    ensures Apply(s, Advance(c)) ==
            if Taken(s.documents, content) then s.(calls := s.calls[c := LostRace(content)])
            else s.(documents := s.documents[s.nextDocument := Document(content, Pending)],
                    uploadEvents := s.uploadEvents + [s.nextDocument],
                    calls := s.calls[c := Answered(content, Created(s.nextDocument))],
                    nextDocument := s.nextDocument + 1)
  {
  }

  lemma Lost(s: State, c: CallId, content: ContentKey)
    requires c in s.calls && s.calls[c] == LostRace(content) && Inv(s)
    ensures Enabled(s, Advance(c)) && OnePerContent(s)
    ensures Apply(s, Advance(c)) == s.(calls := s.calls[c := Answered(content, Lookup(s.documents, content))])
  {
    hide Lookup;
  }

  /** What the invariant says about an answered upload. */
  lemma Truthful(s: State, c: CallId)
    requires Inv(s) && c in s.calls && s.calls[c].Answered?
    ensures var Answered(content, answer) := s.calls[c];
            !answer.NoWinner? && Holds(s.documents, content, answer.document) && content in s.objects
  {
    hide Occurrences, Accepted;
    assert CallTrue(s, s.calls[c]);
  }

  lemma RetryBegun(s: State, c: CallId, d: DocumentId)
    requires c !in s.calls && d in s.documents
    ensures Enabled(s, BeginRetry(c, d)) && Apply(s, BeginRetry(c, d)) == s.(calls := s.calls[c := RetryReading(d)])
  {
  }

  lemma RetryRead(s: State, c: CallId, d: DocumentId)
    requires c in s.calls && s.calls[c] == RetryReading(d) && d in s.documents
    ensures Enabled(s, Advance(c))
    ensures Apply(s, Advance(c)) ==
            var next := if s.documents[d].status == Failed then RetryWriting(d) else RetryAnswered(d, false);
            s.(calls := s.calls[c := next])
  {
  }

  lemma RetryWritten(s: State, c: CallId, d: DocumentId)
    requires c in s.calls && s.calls[c] == RetryWriting(d) && d in s.documents
    ensures Enabled(s, Advance(c))
    ensures Apply(s, Advance(c)) ==
            s.(documents := s.documents[d := s.documents[d].(status := Pending)],
               uploadEvents := s.uploadEvents + [d], calls := s.calls[c := RetryAnswered(d, true)])
  {
  }

  /** Without a delete no document goes away. */
  lemma {:induction false} DocumentsStay(s: State, steps: seq<Step>, d: DocumentId)
    requires Valid(s, steps) && NothingDeleted(steps) && d in s.documents
    ensures d in Run(s, steps).documents
    decreases |steps|
  {
    if steps != [] {
      assert NothingDeleted(steps[1..]);
      DocumentsStay(Apply(s, steps[0]), steps[1..], d);
    }
  }

  lemma {:induction false} TakenStays(s: State, steps: seq<Step>, content: ContentKey)
    requires Inv(s) && Valid(s, steps) && NothingDeleted(steps)
    ensures Taken(s.documents, content) ==> Taken(Run(s, steps).documents, content)
    decreases |steps|
  {
    hide Lookup, Occurrences, Accepted;
    if steps != [] {
      StepKeeps(s, steps[0]);
      if d :| Holds(s.documents, content, d) {
        assert Holds(Apply(s, steps[0]).documents, content, d);
      }
      assert NothingDeleted(steps[1..]);
      TakenStays(Apply(s, steps[0]), steps[1..], content);
    }
  }
}
