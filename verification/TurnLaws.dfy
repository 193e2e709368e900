/** What every run of the turn graph keeps, through pauses, resumes, replays and new turns. */
module TurnLaws {
  import opened AgentGraph
  import opened ApprovalLaws
  import opened Shared
  import opened ToolReplay

  // ------------------------------------------------------------- invariants

  /** A node after the input guardrail is only ever next in a turn that was let through. */
  predicate LetThrough(c: Conversation) {
    c.checkpoint.next !in {NormalizeInput, GuardrailIn, End} ==> c.checkpoint.blockReason == ""
  }

  predicate EndsWith(journal: seq<Entry>, tail: seq<Entry>) {
    |tail| <= |journal| && journal[|journal| - |tail|..] == tail
  }

  /** A blocked turn is over: its refusal has a reason, and only a new turn follows it. */
  predicate BlockedIsFinal(c: Conversation) {
    (forall i :: 0 <= i < |c.journal| && c.journal[i].Blocked? ==>
      c.journal[i].reason != "" && (i + 1 < |c.journal| ==> c.journal[i + 1].TurnBegan?)) &&
    (c.journal != [] && c.journal[|c.journal| - 1].Blocked? ==> c.checkpoint.next == End) &&
    (c.checkpoint.next == End ==>
      (c.checkpoint.blockReason != "" <==> c.journal != [] && c.journal[|c.journal| - 1].Blocked?))
  }

  /** The tools node's answers were given in suspensions of this very batch. */
  ghost predicate ToolsInHistory(c: Conversation) {
    c.checkpoint.next == Tools ==>
      var calls := CallsOf(c.checkpoint.requested);
      History(calls, c.checkpoint.rounds) &&
      (c.checkpoint.suspended.Some? ==>
        |c.checkpoint.suspended.value| == |calls| &&
        Replay(calls, c.checkpoint.suspended.value, Answers(c.checkpoint.rounds)).Paused?)
  }

  /** The output guardrail asks at most once, and its answer is the last thing that happened. */
  predicate SpoilerAsked(c: Conversation) {
    c.checkpoint.next == GuardrailOut ==>
      (c.checkpoint.suspended.Some? ==> c.checkpoint.rounds == [] && EndsWith(c.journal, [Asked(SpoilerWarning)])) &&
      (c.checkpoint.suspended.None? && c.checkpoint.rounds != [] ==>
        |c.checkpoint.rounds| == 1 &&
        EndsWith(c.journal, [Asked(SpoilerWarning), Resumed(c.checkpoint.rounds[0].answer)]))
  }

  /** Just before entry `i`, the reader was warned and approved, and then the node ran again. */
  predicate ApprovedBefore(journal: seq<Entry>, i: nat) {
    3 <= i <= |journal| && journal[i - 1] == Entered(GuardrailOut) && journal[i - 3] == Asked(SpoilerWarning) &&
    journal[i - 2].Resumed? && journal[i - 2].answer.action == Approve
  }

  predicate RisksApproved(journal: seq<Entry>) {
    forall i :: 0 <= i < |journal| && journal[i].Replied? && journal[i].risky && journal[i].revealed ==>
      ApprovedBefore(journal, i)
  }

  predicate EverSaved(journal: seq<Entry>) {
    exists i :: 0 <= i < |journal| && journal[i].SummarySaved?
  }

  /** The acknowledgement stays from the first save on: no node of a later turn resets it. */
  predicate AckIffSaved(c: Conversation) {
    c.checkpoint.saveAck == if EverSaved(c.journal) then SAVED else ""
  }

  ghost predicate Inv(c: Conversation) {
    LetThrough(c) && BlockedIsFinal(c) && ToolsInHistory(c) && SpoilerAsked(c) && RisksApproved(c.journal) &&
    AckIffSaved(c) && (c.checkpoint.next == End ==> c.checkpoint.suspended.None?)
  }

  // ---------------------------------------------------------- journal growth

  lemma JournalGrows(before: seq<Entry>, more: seq<Entry>)
    requires RisksApproved(before)
    requires forall k :: 0 <= k < |more| && more[k].Replied? && more[k].risky && more[k].revealed ==>
               ApprovedBefore(before + more, |before| + k)
    ensures RisksApproved(before + more)
    ensures EverSaved(before + more) <==> EverSaved(before) || EverSaved(more)
  {
    var all := before + more;
    forall i | 0 <= i < |all| && all[i].Replied? && all[i].risky && all[i].revealed
      ensures ApprovedBefore(all, i)
    {
      if i < |before| {
        assert ApprovedBefore(before, i);
      } else {
        assert all[i] == more[i - |before|];
      }
    }
    if EverSaved(before) {
      var i :| 0 <= i < |before| && before[i].SummarySaved?;
      assert all[i].SummarySaved?;
    }
    if EverSaved(more) {
      var i :| 0 <= i < |more| && more[i].SummarySaved?;
      assert all[|before| + i].SummarySaved?;
    }
  }

  lemma BlocksGrow(c: Conversation, c': Conversation, more: seq<Entry>)
    requires BlockedIsFinal(c) && c'.journal == c.journal + more && more != []
    requires c.journal != [] && c.journal[|c.journal| - 1].Blocked? ==> more[0].TurnBegan?
    requires forall k :: 0 <= k < |more| && more[k].Blocked? ==> k == |more| - 1 && more[k].reason != ""
    requires more[|more| - 1].Blocked? ==> c'.checkpoint.next == End
    requires c'.checkpoint.next == End ==> (c'.checkpoint.blockReason != "" <==> more[|more| - 1].Blocked?)
    ensures BlockedIsFinal(c')
  {
    var all := c'.journal;
    forall i | 0 <= i < |all| && all[i].Blocked?
      ensures all[i].reason != "" && (i + 1 < |all| ==> all[i + 1].TurnBegan?)
    {
      if i < |c.journal| {
        assert c.journal[i].Blocked?;
      } else {
        assert all[i] == more[i - |c.journal|];
      }
    }
    assert all[|all| - 1] == more[|more| - 1];
  }

  lemma HistoryGrows(calls: seq<Call>, rounds: seq<Round>, seen: seq<Observation>, answer: Answer)
    requires History(calls, rounds) && |seen| == |calls| && Replay(calls, seen, Answers(rounds)).Paused?
    ensures History(calls, rounds + [Round(seen, answer)])
  {
    var all := rounds + [Round(seen, answer)];
    forall i | 0 <= i < |all|
      ensures |all[i].seen| == |calls| && ReplayOf(calls, all, i).Paused?
    {
      if i < |rounds| {
        assert Answers(all)[..i] == Answers(rounds)[..i];
        assert ReplayOf(calls, rounds, i).Paused?;
      } else {
        assert Answers(all)[..i] == Answers(rounds);
      }
    }
  }

  // ---------------------------------------------------------- input by input

  lemma NewTurnKeeps(c: Conversation)
    requires Inv(c)
    ensures Inv(Next(c, NewTurn))
  {
    var c' := Next(c, NewTurn);
    JournalGrows(c.journal, [TurnBegan]);
    BlocksGrow(c, c', [TurnBegan]);
  }

  lemma ResumeKeeps(c: Conversation, answer: Answer)
    requires Inv(c) && Accepts(c, Resume(answer))
    ensures Inv(Next(c, Resume(answer)))
  {
    var c' := Next(c, Resume(answer));
    JournalGrows(c.journal, [Resumed(answer)]);
    BlocksGrow(c, c', [Resumed(answer)]);
    if c.checkpoint.next == Tools {
      HistoryGrows(CallsOf(c.checkpoint.requested), c.checkpoint.rounds, c.checkpoint.suspended.value, answer);
    }
    if c.checkpoint.next == GuardrailOut {
      var n := |c.journal|;
      assert c.journal[n - 1..] == [Asked(SpoilerWarning)] && c.journal[n - 1] == [Asked(SpoilerWarning)][0];
      assert c'.journal[n - 1..] == [Asked(SpoilerWarning), Resumed(answer)];
    }
  }

  /** A node execution other than the output guardrail's. */
  lemma ExecuteKeeps(c: Conversation, world: World)
    requires Inv(c) && Accepts(c, Execute(world)) && c.checkpoint.next != GuardrailOut
    ensures Inv(Next(c, Execute(world)))
  {
    hide RunNode, Replay, History;
    var c', run := Next(c, Execute(world)), RunNode(c.checkpoint, world);
    var more := [Entered(c.checkpoint.next)] + run.entries;
    assert c'.journal == c.journal + more;
    assert more[|more| - 1] == if run.entries == [] then Entered(c.checkpoint.next) else run.entries[|run.entries| - 1];
    NodeEntries(c.checkpoint, world);
    JournalGrows(c.journal, more);
    BlocksGrow(c, c', more);
    SavedByNode(c.checkpoint, world);
    ToolsStart(c.checkpoint, world, c);
  }

  /** What a node other than the output guardrail may add to the journal. */
  lemma NodeEntries(state: Checkpoint, world: World)
    requires state.next !in {End, GuardrailOut} && (state.next == Tools ==> |world.seen| == |state.requested|)
    requires state.next !in {NormalizeInput, GuardrailIn} ==> state.blockReason == ""
    ensures var run := RunNode(state, world);
            (forall k :: 0 <= k < |run.entries| ==>
              !run.entries[k].Replied? && !run.entries[k].TurnBegan? &&
              (run.entries[k].Blocked? ==>
                k == |run.entries| - 1 && run.entries[k].reason != "" && run.checkpoint.next == End)) &&
            (run.checkpoint.next == End ==>
              (run.checkpoint.blockReason != "" <==> run.entries != [] && run.entries[|run.entries| - 1].Blocked?)) &&
            (run.checkpoint.next !in {NormalizeInput, GuardrailIn, End} ==> run.checkpoint.blockReason == "") &&
            (run.checkpoint.next == GuardrailOut ==>
              run.checkpoint.rounds == [] && run.checkpoint.suspended.None?) &&
            (run.checkpoint.next == End ==> run.checkpoint.suspended.None?)
  {
  }

  lemma SavedByNode(state: Checkpoint, world: World)
    requires state.next !in {End, GuardrailOut} && (state.next == Tools ==> |world.seen| == |state.requested|)
    ensures var run := RunNode(state, world);
            run.checkpoint.saveAck ==
            if EverSaved([Entered(state.next)] + run.entries) then SAVED else state.saveAck
  {
    var more := [Entered(state.next)] + RunNode(state, world).entries;
    if state.next == PersistMemory && |more| == 2 && more[1].SummarySaved? {
      assert EverSaved(more);
    } else {
      assert forall i :: 0 <= i < |more| ==> !more[i].SummarySaved?;
    }
  }

  lemma ToolsStart(state: Checkpoint, world: World, c: Conversation)
    requires c.checkpoint == state && ToolsInHistory(c)
    requires state.next !in {End, GuardrailOut} && (state.next == Tools ==> |world.seen| == |state.requested|)
    ensures ToolsInHistory(Conversation(RunNode(state, world).checkpoint, []))
  {
  }

  /** What the output guardrail does: one entry, risky and revealed only on an approval. */
  lemma GuardrailOutEntry(state: Checkpoint, world: World)
    requires state.next == GuardrailOut
    ensures var run := RunNode(state, world);
            |run.entries| == 1 && run.checkpoint.saveAck == state.saveAck &&
            run.checkpoint.blockReason == state.blockReason &&
            (if run.entries[0] == Asked(SpoilerWarning)
             then run.checkpoint.next == GuardrailOut && state.rounds == [] == run.checkpoint.rounds &&
                  run.checkpoint.suspended.Some?
             else run.entries[0].Replied? && run.checkpoint.next == Compact && run.checkpoint.suspended.None? &&
                  (run.entries[0].risky ==> state.rounds != []) &&
                  (run.entries[0].risky && run.entries[0].revealed ==> state.rounds[0].answer.action == Approve))
  {
  }

  lemma GuardrailOutKeeps(c: Conversation, world: World)
    requires Inv(c) && Accepts(c, Execute(world)) && c.checkpoint.next == GuardrailOut
    ensures Inv(Next(c, Execute(world)))
  {
    hide RunNode, WithSaveAck, History, Replay, RisksApproved, BlockedIsFinal, ApprovedBefore, EverSaved;
    GuardrailOutEntry(c.checkpoint, world);
    var c', run := Next(c, Execute(world)), RunNode(c.checkpoint, world);
    var more := [Entered(GuardrailOut), run.entries[0]];
    assert run.entries == [run.entries[0]];
    assert c'.journal == c.journal + more;
    if more[1].Replied? && more[1].risky && more[1].revealed {
      WarnedAndApproved(c, more);
    }
    JournalGrows(c.journal, more);
    NotBlocked(c);
    BlocksGrow(c, c', more);
    NotSaved(more);
    EndsWithLast(c.journal, more);
  }

  lemma NotBlocked(c: Conversation)
    requires BlockedIsFinal(c) && c.checkpoint.next != End
    ensures c.journal != [] ==> !c.journal[|c.journal| - 1].Blocked?
  {
  }

  lemma NotSaved(more: seq<Entry>)
    requires forall i :: 0 <= i < |more| ==> !more[i].SummarySaved?
    ensures !EverSaved(more)
  {
  }

  lemma EndsWithLast(journal: seq<Entry>, more: seq<Entry>)
    requires |more| == 2
    ensures EndsWith(journal + more, [more[1]])
  {
  }

  lemma WarnedAndApproved(c: Conversation, more: seq<Entry>)
    requires SpoilerAsked(c) && c.checkpoint.next == GuardrailOut && c.checkpoint.suspended.None?
    requires c.checkpoint.rounds != [] && c.checkpoint.rounds[0].answer.action == Approve
    requires |more| == 2 && more[0] == Entered(GuardrailOut)
    ensures ApprovedBefore(c.journal + more, |c.journal| + 1)
  {
    var n, tail := |c.journal|, [Asked(SpoilerWarning), Resumed(c.checkpoint.rounds[0].answer)];
    assert c.journal[n - 2..] == tail;
    assert c.journal[n - 2] == tail[0] && c.journal[n - 1] == tail[1];
  }

  // ------------------------------------------------------------ the theorems

  lemma {:induction false} RunKeeps(c: Conversation, inputs: seq<Input>)
    requires Inv(c) && Valid(c, inputs)
    ensures Inv(Run(c, inputs))
    decreases |inputs|
  {
    hide Inv, Next, Accepts;
    if inputs != [] {
      InputKeeps(c, inputs[0]);
      RunKeeps(Next(c, inputs[0]), inputs[1..]);
    }
  }

  lemma InputKeeps(c: Conversation, input: Input)
    requires Inv(c) && Accepts(c, input)
    ensures Inv(Next(c, input))
  {
    hide Inv, Next;
    match input
    case NewTurn => NewTurnKeeps(c);
    case Resume(answer) => ResumeKeeps(c, answer);
    case Execute(world) =>
      if c.checkpoint.next == GuardrailOut {
        GuardrailOutKeeps(c, world);
      } else {
        ExecuteKeeps(c, world);
      }
  }

  lemma Reachable(inputs: seq<Input>)
    requires Valid(Conversation(START, []), inputs)
    ensures Inv(Run(Conversation(START, []), inputs))
  {
    assert Inv(Conversation(START, []));
    RunKeeps(Conversation(START, []), inputs);
  }

  /** An answer the last judging found risky is revealed only right after the reader was warned and approved. */
  lemma RiskyNeedsApproval(inputs: seq<Input>, i: nat)
    requires Valid(Conversation(START, []), inputs)
    requires var journal := Run(Conversation(START, []), inputs).journal;
             i < |journal| && journal[i].Replied? && journal[i].risky && journal[i].revealed
    ensures ApprovedBefore(Run(Conversation(START, []), inputs).journal, i)
  {
    Reachable(inputs);
    assert RisksApproved(Run(Conversation(START, []), inputs).journal);
  }

  /** A finished turn has a block reason exactly when it was rejected, and nothing of a rejected turn follows. */
  lemma BlockReasonIffRejected(inputs: seq<Input>)
    requires Valid(Conversation(START, []), inputs)
    ensures var c := Run(Conversation(START, []), inputs);
            (c.checkpoint.next == End ==>
              (c.checkpoint.blockReason != "" <==> c.journal != [] && c.journal[|c.journal| - 1].Blocked?)) &&
            (c.checkpoint.next !in {NormalizeInput, GuardrailIn, End} ==> c.checkpoint.blockReason == "") &&
            (forall i :: 0 <= i < |c.journal| - 1 && c.journal[i].Blocked? ==> c.journal[i + 1].TurnBegan?)
  {
    Reachable(inputs);
  }

  lemma ToolEntryIsEffect(requested: seq<ToolCall>, effects: seq<Effect>, effect: Effect, entries: seq<Entry>)
    requires ToolEntries(requested, effects) <= entries
    requires forall i :: |effects| <= i < |entries| ==> !entries[i].Tool?
    requires Tool(requested, effect) in entries
    ensures effect in effects
  {
    var i :| 0 <= i < |entries| && entries[i] == Tool(requested, effect);
    assert entries[i] == ToolEntries(requested, effects)[i];
  }

  /** In every reachable conversation a search goes out with the query of its own call, its view, and its answer. */
  lemma SearchesTheirQuery(inputs: seq<Input>, world: World)
    requires Valid(Conversation(START, []), inputs)
    requires var c := Run(Conversation(START, []), inputs);
             Accepts(c, Execute(world)) && c.checkpoint.next == Tools
    ensures var state := Run(Conversation(START, []), inputs).checkpoint;
            var calls := CallsOf(state.requested);
            forall x: nat, m: nat, query ::
              Searched(x, m, query) in Replay(calls, world.seen, Answers(state.rounds)).effects ==>
                x < |calls| && m < |state.rounds| &&
                QueryIs(calls[x], world.seen[x], state.rounds[m].answer, query)
  {
    var state := Run(Conversation(START, []), inputs).checkpoint;
    ReplayIs(CallsOf(state.requested), world.seen, Answers(state.rounds));
    hide Replay, QueryIs, Run, Valid;
  }

  /**
   Any search a tools execution makes, in any reachable conversation, was asked about itself and not denied, and goes
   out with the query its own answer gives, or else its own.
   */
  lemma SearchesApproved(inputs: seq<Input>, world: World)
    requires Valid(Conversation(START, []), inputs)
    requires var c := Run(Conversation(START, []), inputs);
             Accepts(c, Execute(world)) && c.checkpoint.next == Tools && PausesStable(CallsOf(c.checkpoint.requested))
    ensures var state := Run(Conversation(START, []), inputs).checkpoint;
            var calls := CallsOf(state.requested);
            History(calls, state.rounds) && SearchesOwnAnswers(calls, state.rounds, world.seen) &&
            forall x: nat, m: nat, query ::
              Tool(state.requested, Searched(x, m, query)) in RunTools(state, world).entries ==>
                x < |calls| && m < |state.rounds| && AskedBy(calls, state.rounds, m) == x &&
                state.rounds[m].answer.action != Deny && QueryIs(calls[x], world.seen[x], state.rounds[m].answer, query)
  {
    SearchesTheirQuery(inputs, world);
    Reachable(inputs);
    var state := Run(Conversation(START, []), inputs).checkpoint;
    StableSuffices(CallsOf(state.requested), state.rounds, world.seen);
    var effects := Replay(CallsOf(state.requested), world.seen, Answers(state.rounds)).effects;
    hide Replay, History, QueryIs, Run, Valid;
    forall x: nat, m: nat, query | Tool(state.requested, Searched(x, m, query)) in RunTools(state, world).entries
      ensures Searched(x, m, query) in effects
    {
      ToolEntryIsEffect(state.requested, effects, Searched(x, m, query), RunTools(state, world).entries);
    }
  }

  /** A reply carries the save acknowledgement exactly when some turn of the conversation, not just this one, saved. */
  lemma AckIffEverSaved(inputs: seq<Input>, world: World)
    requires Valid(Conversation(START, []), inputs)
    requires var c := Run(Conversation(START, []), inputs);
             Accepts(c, Execute(world)) && c.checkpoint.next == GuardrailOut
    ensures var c := Run(Conversation(START, []), inputs);
            var entry := RunGuardrailOut(c.checkpoint, world).entries[0];
            entry.Replied? ==>
              var text := if entry.revealed then c.checkpoint.text else WITHHELD;
              entry.text == if EverSaved(c.journal) then text + "\n\n" + SAVED else text
  {
    Reachable(inputs);
  }
}
