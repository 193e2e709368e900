/** What declining a spoiler warning comes to: the replay asks the judge anew, and its word decides. */
module SpoilerLaws {
  import opened AckLaws
  import opened AgentGraph
  import opened Shared
  import opened ToolReplay
  import TurnLaws

  /** The judge is asked only about a document the turn named, so a warning's document stays known to the replay. */
  predicate WarnedAboutDocument(state: Checkpoint) {
    state.next == GuardrailOut && (state.suspended.Some? || state.rounds != []) ==> state.activeDocument.Some?
  }

  lemma {:induction false} WarningKeepsDocument(c: Conversation, inputs: seq<Input>)
    requires WarnedAboutDocument(c.checkpoint) && Valid(c, inputs)
    ensures WarnedAboutDocument(Run(c, inputs).checkpoint)
    decreases |inputs|
  {
    hide Accepts, Next, WarnedAboutDocument;
    if inputs != [] {
      InputKeepsDocument(c, inputs[0]);
      WarningKeepsDocument(Next(c, inputs[0]), inputs[1..]);
    }
  }

  lemma InputKeepsDocument(c: Conversation, input: Input)
    requires WarnedAboutDocument(c.checkpoint) && Accepts(c, input)
    ensures WarnedAboutDocument(Next(c, input).checkpoint)
  {
    hide Replay;
  }

  /** The replay's judging is reached, and finds a risk once more. */
  predicate StillRisky(world: World) {
    world.position.Some? &&
    ResolveSpoilerSafe(None, world.position.value.spoilerSafe, world.userSpoilerSafe) &&
    world.spoilerRisk
  }

  /**
   In any reachable conversation that waits on a spoiler warning, an answer other than an approval has the reply
   withheld exactly when the replay still finds the reader's row, spoiler-safe on and a risk; otherwise the reply it
   declined is shown.
   */
  lemma DeclinedStaysWithheldIff(history: seq<Input>, answer: Answer, world: World)
    requires Valid(BLANK, history) && answer.action != Approve
    requires var c := Run(BLANK, history);
             c.checkpoint.next == GuardrailOut && c.checkpoint.suspended.Some?
    ensures var c := Run(BLANK, history);
            Valid(c, [Resume(answer), Execute(world)]) &&
            var journal := Run(c, [Resume(answer), Execute(world)]).journal;
            var withheld := Replied(false, true, WithSaveAck(WITHHELD, c.checkpoint.saveAck));
            var shown := Replied(true, false, WithSaveAck(c.checkpoint.text, c.checkpoint.saveAck));
            journal == c.journal + [Resumed(answer), Entered(GuardrailOut),
                                    if StillRisky(world) then withheld else shown]
  {
    hide WithSaveAck, Next;
    TurnLaws.Reachable(history);
    WarningKeepsDocument(BLANK, history);
    var c := Run(BLANK, history);
    DeclinedReplay(c, answer, world);
    RunOn(c, [], Resume(answer));
    assert [] + [Resume(answer)] == [Resume(answer)];
    RunOn(c, [Resume(answer)], Execute(world));
    assert [Resume(answer)] + [Execute(world)] == [Resume(answer), Execute(world)];
  }

  lemma DeclinedReplay(c: Conversation, answer: Answer, world: World)
    requires c.checkpoint.next == GuardrailOut && c.checkpoint.suspended.Some? && c.checkpoint.rounds == []
    requires c.checkpoint.activeDocument.Some? && answer.action != Approve
    ensures Accepts(c, Resume(answer)) && Accepts(Next(c, Resume(answer)), Execute(world))
    ensures Next(Next(c, Resume(answer)), Execute(world)).journal ==
            c.journal + [Resumed(answer), Entered(GuardrailOut),
                         if StillRisky(world) then Replied(false, true, WithSaveAck(WITHHELD, c.checkpoint.saveAck))
                         else Replied(true, false, WithSaveAck(c.checkpoint.text, c.checkpoint.saveAck))]
  {
    hide WithSaveAck;
    var resumed := Next(c, Resume(answer));
    assert resumed.checkpoint.rounds == [] + [Round(c.checkpoint.suspended.value, answer)];
  }

  const DECLINED := Answer(Deny, None, None, None)

  /** A world whose judge finds the risk that `Reader`'s does not, for a reader who has the setting on. */
  function Warned(document: nat, page: int): World {
    Reader(document, page, false).(userSpoilerSafe := true, spoilerRisk := true)
  }

  /** A reader is warned, declines, and is shown the text all the same: the second judging finds nothing. */
  lemma DeclinedIsShown(document: nat, page: int) returns (history: seq<Input>)
    ensures Valid(BLANK, history)
    ensures var journal := Run(BLANK, history).journal;
            4 <= |journal| &&
            journal[|journal| - 4..] ==
            [Asked(SpoilerWarning), Resumed(DECLINED), Entered(GuardrailOut), Replied(true, false, "answer")]
  {
    hide LetIn, ReadyToAnswer;
    var c: Conversation;
    Stays(BLANK);
    LetInReader(document, page);
    history, c := Opened(BLANK, [], BLANK, Reader(document, page, false));
    ReadyTwice(START);
    ReadyUnsaved();
    history, c := AskedAndRead(history, c, document, page);
    history, c := WarnedAndDeclined(history, c, document, page);
  }

  lemma ReadyUnsaved()
    ensures ReadyToAnswer(START).saveAck == ""
  {
  }

  lemma WarnedAndDeclined(history: seq<Input>, c: Conversation, document: nat, page: int)
    returns (inputs: seq<Input>, shown: Conversation)
    requires Reaches(BLANK, history, c) && c.checkpoint.activeDocument == Some(document)
    requires c.checkpoint.next == PersistMemory && c.checkpoint.rounds == [] && c.checkpoint.suspended.None?
    requires c.checkpoint.text == "answer" && c.checkpoint.saveAck == ""
    ensures Reaches(BLANK, inputs, shown)
    ensures 4 <= |shown.journal|
    ensures shown.journal[|shown.journal| - 4..] ==
            [Asked(SpoilerWarning), Resumed(DECLINED), Entered(GuardrailOut), Replied(true, false, "answer")]
  {
    hide Reaches;
    var unread := Warned(document, page).(position := Some(Position(page, page, None)));
    inputs, shown := Take(BLANK, history, c, Execute(unread));
    inputs, shown := Take(BLANK, inputs, shown, Execute(unread));
    inputs, shown := Take(BLANK, inputs, shown, Resume(DECLINED));
    inputs, shown := Take(BLANK, inputs, shown, Execute(Reader(document, page, false)));
  }
}
