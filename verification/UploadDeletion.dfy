/** Uploads among deletes: exactly when a lost race has no winner to report, and when a document lacks its original. */
module UploadDeletion {
  import opened Shared
  import opened Uploads

  // ---------------------------------------------------------- row by content

  /** What the last step on a content's row was. */
  datatype Touch = Untouched | Made | Removed

  /** An insert of the content, or a delete of the document that holds it. */
  ghost function TouchOf(s: State, step: Step, content: ContentKey): Touch
    requires Enabled(s, step)
  {
    match step
    case Advance(c) => if s.calls[c] == Inserting(content) && !Taken(s.documents, content) then Made else Untouched
    case Delete(d) => if Holds(s.documents, content, d) then Removed else Untouched
    case _ => Untouched
  }

  /** The last insert or delete of the content in a run, if it has one. */
  ghost function LastTouch(s: State, steps: seq<Step>, content: ContentKey): Touch
    requires Valid(s, steps)
    decreases |steps|
  {
    if steps == [] then Untouched
    else
      var later := LastTouch(Apply(s, steps[0]), steps[1..], content);
      if later != Untouched then later else TouchOf(s, steps[0], content)
  }

  ghost predicate TakenBy(touch: Touch, before: bool) {
    touch == Made || (touch == Untouched && before)
  }

  lemma StepTouches(s: State, step: Step, content: ContentKey)
    requires Table(s) && Enabled(s, step)
    ensures Taken(Apply(s, step).documents, content) <==>
            TakenBy(TouchOf(s, step, content), Taken(s.documents, content))
  {
    hide Lookup, EventsCounted;
    var s' := Apply(s, step);
    if d :| Holds(s.documents, content, d) {
      assert step != Delete(d) ==> Holds(s'.documents, content, d);
    }
    if d' :| Holds(s'.documents, content, d') {
      assert d' in s.documents ==> Holds(s.documents, content, d');
    }
    if TouchOf(s, step, content) == Made {
      assert Holds(s'.documents, content, s.nextDocument);
    }
  }

  /** After any run a content is taken exactly as its last insert or delete, or the start, says. */
  lemma {:induction false} TakenIff(s: State, steps: seq<Step>, content: ContentKey)
    requires Table(s) && Valid(s, steps)
    ensures Taken(Run(s, steps).documents, content) <==>
            TakenBy(LastTouch(s, steps, content), Taken(s.documents, content))
    decreases |steps|
  {
    hide Table, Apply, Enabled, Taken, TouchOf;
    if steps != [] {
      StepKeepsTable(s, steps[0]);
      StepTouches(s, steps[0], content);
      TakenIff(Apply(s, steps[0]), steps[1..], content);
    }
  }

  /**
   An upload that lost its race after `before`, and looks the winner up after `since`, finds none exactly when the last
   step on its content since then was a delete of the document that held it.
   */
  lemma NoWinnerIff(before: seq<Step>, c: CallId, since: seq<Step>, content: ContentKey)
    requires Valid(EMPTY, before)
    requires var s := Run(EMPTY, before);
             Enabled(s, Advance(c)) && s.calls[c] == Inserting(content) && Taken(s.documents, content) &&
             Valid(Apply(s, Advance(c)), since)
    requires var s' := Run(Apply(Run(EMPTY, before), Advance(c)), since);
             c in s'.calls && s'.calls[c] == LostRace(content)
    ensures var lost := Apply(Run(EMPTY, before), Advance(c));
            var answered := Apply(Run(lost, since), Advance(c));
            answered.calls[c] == Answered(content, NoWinner) <==> LastTouch(lost, since, content) == Removed
  {
    hide Lookup, Table;
    assert Table(EMPTY) by {
      EmptyTable();
    }
    RunKeepsTable(EMPTY, before);
    var s := Run(EMPTY, before);
    StepKeepsTable(s, Advance(c));
    var lost := Apply(s, Advance(c));
    assert Taken(lost.documents, content);
    TakenIff(lost, since, content);
    LookupFinds(Run(lost, since).documents, content);
  }

  lemma EmptyTable()
    ensures Table(EMPTY)
  {
  }

  lemma LookupFinds(documents: map<DocumentId, Document>, content: ContentKey)
    ensures Lookup(documents, content) == NoWinner <==> !Taken(documents, content)
  {
  }

  /** Deletion is the exception: it can take the winner away before the loser looks it up. */
  lemma DeletionLeavesNoWinner(content: ContentKey) returns (steps: seq<Step>)
    ensures Valid(EMPTY, steps) && 1 in Run(EMPTY, steps).calls
    ensures Run(EMPTY, steps).calls[1] == Answered(content, NoWinner)
    ensures |steps| == 11 && steps[8] == DropObject(0) && steps[9] == Delete(0)
  {
    hide Valid, Run;
    var s: State;
    steps, s := TwoUploadsRace(content);
    assert Taken(s.documents, content) by { assert Holds(s.documents, content, 0); }
    steps, s := Take(steps, s, Advance(1));
    steps, s := Take(steps, s, DropObject(0));
    steps, s := Take(steps, s, Delete(0));
    steps, s := Take(steps, s, Advance(1));
  }

  /** Two identical uploads both pass the fast path; the first inserts. */
  lemma TwoUploadsRace(content: ContentKey) returns (steps: seq<Step>, s: State)
    ensures Valid(EMPTY, steps) && Run(EMPTY, steps) == s && |steps| == 7
    ensures s.documents == map[0 := Document(content, Pending)] && s.nextDocument == 1
    ensures 1 in s.calls && s.calls[1] == Inserting(content)
  {
    assert Valid(EMPTY, []) && Run(EMPTY, []) == EMPTY;
    hide Valid, Run;
    steps, s := Take([], EMPTY, BeginUpload(0, content));
    steps, s := Take(steps, s, BeginUpload(1, content));
    steps, s := Take(steps, s, Advance(0));
    steps, s := Take(steps, s, Advance(1));
    steps, s := Take(steps, s, Advance(0));
    steps, s := Take(steps, s, Advance(1));
    steps, s := Take(steps, s, Advance(0));
  }

  // --------------------------------------------------- original by content

  /** A put of the content's original, or the drop of it by a delete. */
  function ObjectTouchOf(s: State, step: Step, content: ContentKey): Touch
    requires Enabled(s, step)
  {
    match step
    case Advance(c) => if s.calls[c] == Storing(content) then Made else Untouched
    case DropObject(d) => if s.documents[d].content == content then Removed else Untouched
    case _ => Untouched
  }

  ghost function LastObjectTouch(s: State, steps: seq<Step>, content: ContentKey): Touch
    requires Valid(s, steps)
    decreases |steps|
  {
    if steps == [] then Untouched
    else
      var later := LastObjectTouch(Apply(s, steps[0]), steps[1..], content);
      if later != Untouched then later else ObjectTouchOf(s, steps[0], content)
  }

  lemma StepTouchesObject(s: State, step: Step, content: ContentKey)
    requires Enabled(s, step)
    ensures content in Apply(s, step).objects <==> TakenBy(ObjectTouchOf(s, step, content), content in s.objects)
  {
    hide Lookup, Taken;
  }

  /** After any run an original is stored exactly as its last put or drop says: the row's fate does not matter. */
  lemma {:induction false} StoredIff(s: State, steps: seq<Step>, content: ContentKey)
    requires Valid(s, steps)
    ensures content in Run(s, steps).objects <==>
            TakenBy(LastObjectTouch(s, steps, content), content in s.objects)
    decreases |steps|
  {
    hide Apply, Enabled, ObjectTouchOf;
    if steps != [] {
      StepTouchesObject(s, steps[0], content);
      StoredIff(Apply(s, steps[0]), steps[1..], content);
    }
  }

  /** A delete between another upload's put and its insert leaves a document whose original is gone. */
  lemma DeletionLosesOriginal(content: ContentKey) returns (steps: seq<Step>)
    ensures Valid(EMPTY, steps)
    ensures var s := Run(EMPTY, steps); s.documents == map[1 := Document(content, Pending)] && content !in s.objects
  {
    hide Valid, Run;
    var s: State;
    steps, s := TwoUploadsRace(content);
    steps, s := Take(steps, s, DropObject(0));
    steps, s := Take(steps, s, Delete(0));
    assert !Taken(s.documents, content);
    steps, s := Take(steps, s, Advance(1));
  }

  // ------------------------------------------------------- one maker, at most

  /** Document numbers are used once, so a document has one upload that is told it created it. */
  predicate MadeOnce(s: State) {
    (forall c :: c in s.calls && s.calls[c].Answered? && s.calls[c].answer.Created? ==>
      s.calls[c].answer.document < s.nextDocument) &&
    forall c, c' :: c in s.calls && c' in s.calls && s.calls[c].Answered? && s.calls[c'].Answered? &&
                    s.calls[c].answer.Created? && s.calls[c].answer == s.calls[c'].answer ==>
      c == c'
  }

  lemma StepKeepsMadeOnce(s: State, step: Step)
    requires MadeOnce(s) && Enabled(s, step)
    ensures MadeOnce(Apply(s, step))
  {
    hide Lookup;
    if step.Advance? && (s.calls[step.call].Checking? || s.calls[step.call].LostRace?) {
      LookupMakesNone(s.documents, s.calls[step.call].content);
    }
  }

  lemma LookupMakesNone(documents: map<DocumentId, Document>, content: ContentKey)
    ensures !Lookup(documents, content).Created?
  {
  }

  /** Over every run, deletes included, at most one upload is told that it created a given document. */
  lemma {:induction false} OneMaker(s: State, steps: seq<Step>)
    requires MadeOnce(s) && Valid(s, steps)
    ensures MadeOnce(Run(s, steps))
    decreases |steps|
  {
    hide MadeOnce, Apply, Enabled;
    if steps != [] {
      StepKeepsMadeOnce(s, steps[0]);
      OneMaker(Apply(s, steps[0]), steps[1..]);
    }
  }
}
