/** The save acknowledgement outlives its turn: a conversation that saved repeats it, and such conversations exist. */
module AckLaws {
  import opened AgentGraph
  import opened Shared
  import opened ToolReplay
  import opened TurnLaws

  const BLANK := Conversation(START, [])

  lemma {:induction false} RunOn(c: Conversation, inputs: seq<Input>, input: Input)
    requires Valid(c, inputs) && Accepts(Run(c, inputs), input)
    ensures Valid(c, inputs + [input]) && Run(c, inputs + [input]) == Next(Run(c, inputs), input)
    decreases |inputs|
  {
    hide Next, Accepts;
    var all := inputs + [input];
    if inputs == [] {
      assert all[1..] == [];
    } else {
      assert all[0] == inputs[0] && all[1..] == inputs[1..] + [input];
      RunOn(Next(c, inputs[0]), inputs[1..], input);
    }
  }

  /** A run from `first` to `now`. */
  predicate Reaches(first: Conversation, inputs: seq<Input>, now: Conversation) {
    Valid(first, inputs) && Run(first, inputs) == now
  }

  lemma Take(first: Conversation, inputs: seq<Input>, now: Conversation, input: Input)
    returns (inputs': seq<Input>, now': Conversation)
    requires Reaches(first, inputs, now) && Accepts(now, input)
    ensures Reaches(first, inputs', now') && now' == Next(now, input)
  {
    inputs', now' := inputs + [input], Next(now, input);
    RunOn(first, inputs, input);
  }

  // ------------------------------------------------------- a turn's beginning

  predicate LetIn(world: World) {
    !world.injection && world.onTopic && world.safe
  }

  /** The checkpoint when the answer model is next in a turn that was let through. */
  function ReadyToAnswer(state: Checkpoint): Checkpoint {
    state.(next := Generate, injectionDetected := false, blockReason := "", activeDocument := None, rounds := [],
           suspended := None)
  }

  const OPENING := [TurnBegan, Entered(NormalizeInput), Entered(GuardrailIn), Entered(LoadProgress),
                    Entered(LoadMemories), Entered(PlanTurn), Entered(ExtractMemory)]

  lemma NodeGoes(c: Conversation, world: World)
    requires c.checkpoint.suspended.None?
    requires c.checkpoint.next in {NormalizeInput, GuardrailIn, LoadProgress, LoadMemories, PlanTurn, ExtractMemory}
    requires LetIn(world) && (c.checkpoint.next == GuardrailIn ==> !c.checkpoint.injectionDetected)
    ensures Accepts(c, Execute(world))
    ensures var c', state := Next(c, Execute(world)), c.checkpoint;
            c'.journal == c.journal + [Entered(state.next)] &&
            c'.checkpoint ==
            match state.next
            case NormalizeInput =>
              state.(next := GuardrailIn, activeDocument := None, rounds := [], injectionDetected := false)
            case GuardrailIn => state.(next := LoadProgress, blockReason := "", rounds := [])
            case LoadProgress => state.(next := LoadMemories, rounds := [])
            case LoadMemories => state.(next := PlanTurn, rounds := [])
            case PlanTurn => state.(next := ExtractMemory, rounds := [])
            case _ => state.(next := Generate, rounds := [])
  {
  }

  lemma Opened(first: Conversation, before: seq<Input>, c: Conversation, world: World)
    returns (inputs: seq<Input>, ready: Conversation)
    requires Reaches(first, before, c) && LetIn(world)
    ensures Reaches(first, inputs, ready)
    ensures ready == Conversation(ReadyToAnswer(c.checkpoint), c.journal + OPENING)
  {
    hide Reaches, Accepts, LetIn, RunNode;
    inputs, ready := Begun(first, before, c);
    NodeGoes(ready, world);
    inputs, ready := Take(first, inputs, ready, Execute(world));
    NodeGoes(ready, world);
    inputs, ready := Take(first, inputs, ready, Execute(world));
    NodeGoes(ready, world);
    inputs, ready := Take(first, inputs, ready, Execute(world));
    NodeGoes(ready, world);
    inputs, ready := Take(first, inputs, ready, Execute(world));
    NodeGoes(ready, world);
    inputs, ready := Take(first, inputs, ready, Execute(world));
    NodeGoes(ready, world);
    inputs, ready := Take(first, inputs, ready, Execute(world));
  }

  lemma Begun(first: Conversation, before: seq<Input>, c: Conversation)
    returns (inputs: seq<Input>, begun: Conversation)
    requires Reaches(first, before, c)
    ensures Reaches(first, inputs, begun)
    ensures begun == Conversation(c.checkpoint.(next := NormalizeInput, rounds := [], suspended := None),
                                  c.journal + [TurnBegan])
  {
    hide Reaches;
    inputs, begun := Take(first, before, c, NewTurn);
  }

  // ------------------------------------------------- a turn that asks no tool

  /** A turn that is let in and whose model asks for no tool: it names no document, so nothing is saved or judged. */
  lemma PlainTurn(c: Conversation, world: World) returns (inputs: seq<Input>, c': Conversation)
    requires LetIn(world) && world.requested == []
    ensures Reaches(c, inputs, c') && c'.checkpoint.next == End && c'.checkpoint.saveAck == c.checkpoint.saveAck
    ensures c'.journal ==
            c.journal + OPENING + [Entered(Generate), Entered(PersistMemory), Entered(GuardrailOut),
                                   Replied(true, false, WithSaveAck(world.text, c.checkpoint.saveAck)),
                                   Entered(Compact)]
  {
    hide Reaches, LetIn, WithSaveAck;
    assert Reaches(c, [], c) by {
      Stays(c);
    }
    inputs, c' := Opened(c, [], c, world);
    inputs, c' := Take(c, inputs, c', Execute(world));
    inputs, c' := Take(c, inputs, c', Execute(world));
    inputs, c' := Take(c, inputs, c', Execute(world));
    inputs, c' := Take(c, inputs, c', Execute(world));
  }

  lemma Stays(c: Conversation)
    ensures Reaches(c, [], c)
  {
  }

  /**
   After any reachable finished turn of a conversation in which some turn saved a summary, every later turn that is let
   in and asks for no tool saves nothing and yet replies with the acknowledgement.
   */
  lemma AckRepeats(history: seq<Input>, world: World) returns (turn: seq<Input>)
    requires Valid(BLANK, history) && Run(BLANK, history).checkpoint.next == End
    requires EverSaved(Run(BLANK, history).journal)
    requires LetIn(world) && world.requested == []
    ensures var c := Run(BLANK, history);
            Valid(c, turn) &&
            var c', n := Run(c, turn), |c.journal|;
            c'.checkpoint.next == End && n <= |c'.journal| &&
            Replied(true, false, world.text + "\n\n" + SAVED) in c'.journal[n..] &&
            forall i :: n <= i < |c'.journal| ==> !c'.journal[i].SummarySaved?
  {
    hide LetIn, Next, Accepts;
    Reachable(history);
    var c := Run(BLANK, history);
    var c';
    turn, c' := PlainTurn(c, world);
    var added := OPENING + [Entered(Generate), Entered(PersistMemory), Entered(GuardrailOut),
                            Replied(true, false, WithSaveAck(world.text, c.checkpoint.saveAck)), Entered(Compact)];
    assert c'.journal == c.journal + added;
    assert c'.journal[|c.journal|..] == added;
    assert added[10] == Replied(true, false, world.text + "\n\n" + SAVED);
  }

  // ------------------------------------------------------- a turn that saves

  /** A world in which the model asks for one read-only call about the document, or for none, and `page` is reached. */
  function Reader(document: nat, page: int, asks: bool): World {
    World(false, true, true, "", "answer", if asks then [ToolCall("call", ReadOnly, Some(document))] else [], [],
          [Observation(true, true, None)], Some(Position(page, 0, None)), false, true, false)
  }

  const CONFIRMED := Answer(Approve, None, None, None)

  /** The tools node runs the one call and names its document. */
  lemma AskedAndRead(history: seq<Input>, c: Conversation, document: nat, page: int)
    returns (inputs: seq<Input>, read: Conversation)
    requires Reaches(BLANK, history, c) && c.checkpoint == ReadyToAnswer(c.checkpoint)
    ensures Reaches(BLANK, inputs, read)
    ensures read.checkpoint.next == PersistMemory && read.checkpoint.rounds == [] && read.checkpoint.suspended.None?
    ensures read.checkpoint.activeDocument == Some(document)
    ensures read.checkpoint.text == "answer" && read.checkpoint.saveAck == c.checkpoint.saveAck
  {
    hide Reaches;
    var asking, calls := Reader(document, page, true), [ReadOnly];
    inputs, read := Take(BLANK, history, c, Execute(asking));
    assert CallsOf(read.checkpoint.requested) == calls;
    assert Replay(calls, asking.seen, []) == Finished([Ran(0)]);
    inputs, read := Take(BLANK, inputs, read, Execute(asking));
    inputs, read := Take(BLANK, inputs, read, Execute(Reader(document, page, false)));
  }

  /** From there the reader confirms the proposed range and the turn ends. */
  lemma ConfirmedAndSaved(history: seq<Input>, c: Conversation, document: nat, page: int)
    returns (inputs: seq<Input>, saved: Conversation)
    requires Reaches(BLANK, history, c) && 0 < page && c.checkpoint.activeDocument == Some(document)
    requires c.checkpoint.next == PersistMemory && c.checkpoint.rounds == [] && c.checkpoint.suspended.None?
    ensures Reaches(BLANK, inputs, saved) && saved.checkpoint.next == End && EverSaved(saved.journal)
  {
    hide Reaches;
    var reading := Reader(document, page, false);
    inputs, saved := Take(BLANK, history, c, Execute(reading));
    inputs, saved := Take(BLANK, inputs, saved, Resume(CONFIRMED));
    inputs, saved := Take(BLANK, inputs, saved, Execute(reading));
    assert saved.journal[|saved.journal| - 1] == SummarySaved(document, 1, page);
    var n := |saved.journal| - 1;
    inputs, saved := Take(BLANK, inputs, saved, Execute(reading));
    inputs, saved := Take(BLANK, inputs, saved, Execute(reading));
    assert saved.journal[n].SummarySaved?;
  }

  /** Such conversations exist: for every document and any number of pages read, a first turn that saves them. */
  lemma SavedConversation(document: nat, page: int) returns (history: seq<Input>)
    requires 0 < page
    ensures Valid(BLANK, history) && Run(BLANK, history).checkpoint.next == End
    ensures EverSaved(Run(BLANK, history).journal)
  {
    hide LetIn, ReadyToAnswer, EverSaved;
    var c: Conversation;
    Stays(BLANK);
    LetInReader(document, page);
    history, c := Opened(BLANK, [], BLANK, Reader(document, page, false));
    ReadyTwice(START);
    history, c := AskedAndRead(history, c, document, page);
    history, c := ConfirmedAndSaved(history, c, document, page);
  }

  lemma LetInReader(document: nat, page: int)
    ensures LetIn(Reader(document, page, false))
  {
  }

  lemma ReadyTwice(state: Checkpoint)
    ensures ReadyToAnswer(ReadyToAnswer(state)) == ReadyToAnswer(state)
  {
  }
}
