/** When the nodes of a turn reject, save and warn: for every state they can meet, in terms of what they meet. */
module NodeLaws {
  import opened AckLaws
  import opened AgentGraph
  import opened Shared
  import opened ToolReplay

  // ------------------------------------------------------------ the input guard

  /** The refusal is a flagged injection's, else the judge's reason, else the canned one. */
  predicate RefusalIs(flagged: bool, judged: string, reason: string) {
    reason != "" && (if flagged then reason == "injection" else reason == if judged == "" then "off_topic" else judged)
  }

  /**
   A new turn, in any conversation, is blocked exactly when its input is flagged as an injection, or judged off topic or
   unsafe; then it is over, and else it goes on without a block reason and without a document.
   */
  lemma BlockedIff(c: Conversation, screening: World, judging: World)
    ensures Valid(c, [NewTurn, Execute(screening), Execute(judging)])
    ensures var after := Run(c, [NewTurn, Execute(screening), Execute(judging)]);
            var begun := [TurnBegan, Entered(NormalizeInput), Entered(GuardrailIn)];
            if screening.injection || !judging.onTopic || !judging.safe then
              after.checkpoint.next == End &&
              RefusalIs(screening.injection, judging.reason, after.checkpoint.blockReason) &&
              after.journal == c.journal + begun + [Blocked(after.checkpoint.blockReason)]
            else
              after.checkpoint.next == LoadProgress && after.journal == c.journal + begun &&
              after.checkpoint.blockReason == "" && after.checkpoint.activeDocument == None
  {
    var begun := Next(c, NewTurn);
    var screened := Next(begun, Execute(screening));
    RunOn(c, [], NewTurn);
    assert [] + [NewTurn] == [NewTurn];
    RunOn(c, [NewTurn], Execute(screening));
    assert [NewTurn] + [Execute(screening)] == [NewTurn, Execute(screening)];
    RunOn(c, [NewTurn, Execute(screening)], Execute(judging));
    assert [NewTurn, Execute(screening)] + [Execute(judging)] == [NewTurn, Execute(screening), Execute(judging)];
    JudgedIs(screened, judging);
  }

  /** What the input guardrail does. */
  lemma JudgedIs(c: Conversation, world: World)
    requires c.checkpoint.next == GuardrailIn && c.checkpoint.suspended == None
    ensures Accepts(c, Execute(world))
    ensures var after, flagged := Next(c, Execute(world)), c.checkpoint.injectionDetected;
            if flagged || !world.onTopic || !world.safe then
              after.checkpoint.next == End && RefusalIs(flagged, world.reason, after.checkpoint.blockReason) &&
              after.journal == c.journal + [Entered(GuardrailIn), Blocked(after.checkpoint.blockReason)]
            else
              after.checkpoint ==
              c.checkpoint.(next := LoadProgress, blockReason := "", rounds := [], suspended := None) &&
              after.journal == c.journal + [Entered(GuardrailIn)]
  {
  }

  // ------------------------------------------------------- which document, if any

  /** The document a batch of calls is about is the first one that any of them names. */
  lemma {:induction false} FirstNamed(calls: seq<ToolCall>)
    ensures DocumentNamed(calls) == None <==> forall i :: 0 <= i < |calls| ==> calls[i].document == None
    ensures forall i :: 0 <= i < |calls| && calls[i].document != None &&
                        (forall j :: 0 <= j < i ==> calls[j].document == None) ==>
              DocumentNamed(calls) == calls[i].document
  {
    if calls != [] && calls[0].document == None {
      var rest := calls[1..];
      FirstNamed(rest);
      assert forall i :: 0 < i < |calls| ==> calls[i] == rest[i - 1];
    }
  }

  /** A tools node that gets through makes that document the turn's, and hands back to the answer model. */
  lemma ToolsLeave(state: Checkpoint, world: World)
    requires state.next == Tools && |world.seen| == |state.requested|
    ensures var after := RunNode(state, world).checkpoint;
            if after.suspended == None then
              after.next == Generate && after.activeDocument == DocumentNamed(state.requested) && after.rounds == []
            else after == state.(suspended := Some(world.seen))
  {
  }

  // -------------------------------------------------------------- the saved range

  /** The answer's own end of the range, or the proposed one. */
  predicate EndIs(given: Option<int>, proposed: int, page: int) {
    given == Some(page) || (given == None && page == proposed)
  }

  /** The turn named a document of which pages were read since its last summary. */
  predicate SummaryDue(state: Checkpoint, world: World) {
    state.activeDocument != None && world.position != None &&
    world.position.value.lastSummarized < world.position.value.currentPage
  }

  /**
   A summary is saved of exactly the range the answer gives or else the proposal, when one is due, the answer is not a
   denial, the range holds text, and it starts at page one or later and does not end before it starts.
   */
  lemma SavedIff(state: Checkpoint, world: World, document: nat, first: int, last: int)
    requires state.next == PersistMemory
    ensures SummarySaved(document, first, last) in RunNode(state, world).entries <==>
            SummaryDue(state, world) && state.activeDocument == Some(document) && state.rounds != [] &&
            var answer := state.rounds[0].answer;
            answer.action != Deny && world.chunksFound && 1 <= first <= last &&
            EndIs(answer.pageStart, world.position.value.lastSummarized + 1, first) &&
            EndIs(answer.pageEnd, world.position.value.currentPage, last)
  {
  }

  /** The reader is asked to confirm exactly when a summary is due and nothing was answered yet. */
  lemma ConfirmationAskedIff(state: Checkpoint, world: World)
    requires state.next == PersistMemory
    ensures Asked(PageRangeConfirm) in RunNode(state, world).entries <==>
            SummaryDue(state, world) && state.rounds == []
  {
  }

  // ------------------------------------------------------------- the spoiler judge

  /** The turn named a document with a position, spoiler-safe is on for it, and the judge finds a risk. */
  predicate AtRisk(state: Checkpoint, world: World) {
    state.activeDocument != None && world.position != None && world.spoilerRisk &&
    (world.position.value.spoilerSafe == Some(true) ||
     (world.position.value.spoilerSafe == None && world.userSpoilerSafe))
  }

  /** The reader is warned exactly when the answer is at risk and nothing was answered yet; then nothing is shown. */
  lemma WarnedIff(state: Checkpoint, world: World)
    requires state.next == GuardrailOut
    ensures var run := RunNode(state, world);
            (Asked(SpoilerWarning) in run.entries <==> AtRisk(state, world) && state.rounds == []) &&
            (AtRisk(state, world) && state.rounds == [] ==>
              run.checkpoint == state.(suspended := Some([])) && run.entries == [Asked(SpoilerWarning)])
  {
    hide WithSaveAck;
  }

  /** The text is held back exactly when it is at risk and was answered with anything but an approval. */
  lemma WithheldIff(state: Checkpoint, world: World)
    requires state.next == GuardrailOut && (AtRisk(state, world) ==> state.rounds != [])
    ensures var run := RunNode(state, world);
            var declined := AtRisk(state, world) && state.rounds[0].answer.action != Approve;
            var text := if declined then WITHHELD else state.text;
            run.checkpoint.next == Compact && |run.entries| == 1 && run.entries[0].Replied? &&
            run.checkpoint.answer == run.entries[0].text &&
            run.entries[0].text == if state.saveAck == "" then text else text + "\n\n" + state.saveAck
  {
  }

  /** The answer model's text is the turn's, and tools come next exactly when it asks for some. */
  lemma GenerateLeaves(state: Checkpoint, world: World)
    requires state.next == Generate
    ensures var run := RunNode(state, world);
            run.entries == [] && run.checkpoint.text == world.text && run.checkpoint.requested == world.requested &&
            run.checkpoint.activeDocument == state.activeDocument &&
            run.checkpoint.next == if world.requested == [] then PersistMemory else Tools
  {
  }
}
