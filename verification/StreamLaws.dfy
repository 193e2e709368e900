/** What a client sees of a turn: the words the answer model said, the calls it asked for, their results, the nodes. */
module StreamLaws {
  import opened AgentGraph
  import opened EventStream
  import opened Shared
  import opened ToolReplay

  /** A stream or a turn, by kind: text in one piece, ids and nodes in order. */
  datatype Shown = Shown(text: string, called: seq<string>, returned: seq<string>, nodes: seq<Node>)

  const NOTHING := Shown("", [], [], [])

  function Then(a: Shown, b: Shown): Shown {
    Shown(a.text + b.text, a.called + b.called, a.returned + b.returned, a.nodes + b.nodes)
  }

  function ShownByOne(event: Event): Shown {
    match event
    case Token(text) => NOTHING.(text := text)
    case ToolCalled(id) => NOTHING.(called := [id])
    case ToolResult(id) => NOTHING.(returned := [id])
    case NodeStatus(node) => NOTHING.(nodes := [node])
    case _ => NOTHING
  }

  /** What a stream of events shows. */
  function ShownBy(events: seq<Event>): Shown {
    if events == [] then NOTHING else Then(ShownBy(events[..|events| - 1]), ShownByOne(events[|events| - 1]))
  }

  function Joined(tokens: seq<string>): string {
    if tokens == [] then "" else tokens[0] + Joined(tokens[1..])
  }

  function Ids(calls: seq<ToolCall>): seq<string> {
    if calls == [] then [] else [calls[0].id] + Ids(calls[1..])
  }

  /**
   What one node does that a client is to see: that it runs, unless it is the compacting one; what the answer model says
   and asks for; and the results of tools that got through.
   */
  function DoneBy(state: Checkpoint, world: World): Shown
    requires Runs(state, world)
  {
    Shown(if state.next == Generate then Joined(world.tokens) else "",
          if state.next == Generate then Ids(world.requested) else [],
          if state.next == Tools && After(state, world).suspended == None then Ids(state.requested) else [],
          if state.next == Compact then [] else [state.next])
  }

  /** The same of a whole turn. */
  function DoneIn(state: Checkpoint, worlds: seq<World>): Shown
    requires Completes(state, worlds)
    decreases |worlds|
  {
    if state.next == End || state.suspended.Some? then NOTHING
    else Then(DoneBy(state, worlds[0]), DoneIn(After(state, worlds[0]), worlds[1..]))
  }

  // ------------------------------------------------------------------- proofs

  lemma ThenGroups(a: Shown, b: Shown, c: Shown)
    ensures Then(a, Then(b, c)) == Then(Then(a, b), c)
    ensures Then(a, NOTHING) == a == Then(NOTHING, a)
  {
  }

  lemma {:induction false} ShownAppend(front: seq<Event>, back: seq<Event>)
    ensures ShownBy(front + back) == Then(ShownBy(front), ShownBy(back))
  {
    hide Then, ShownByOne;
    if back == [] {
      assert front + back == front;
      ThenGroups(ShownBy(front), NOTHING, NOTHING);
    } else {
      var n := |back| - 1;
      var all := front + back;
      assert all[..|all| - 1] == front + back[..n] && all[|all| - 1] == back[n];
      ShownAppend(front, back[..n]);
      ThenGroups(ShownBy(front), ShownBy(back[..n]), ShownByOne(back[n]));
    }
  }

  lemma ShownOne(event: Event)
    ensures ShownBy([event]) == ShownByOne(event) && ShownBy([]) == NOTHING
  {
    assert [event][..0] == [];
  }

  lemma {:induction false} ShownContents(node: Node, tokens: seq<string>)
    ensures ShownBy(EventsOf(Contents(node, tokens))) ==
            NOTHING.(text := if node == Generate then Joined(tokens) else "")
  {
    hide EventsOf;
    var chunks := Contents(node, tokens);
    EventsFrom(chunks, 0);
    assert chunks[0..] == chunks;
    if tokens != [] {
      var head, rest := TokenFrom(node, tokens[0]), EventsOf(chunks[1..]);
      assert chunks[1..] == Contents(node, tokens[1..]);
      assert EventsOfChunk(chunks[0]) == head;
      ShownContents(node, tokens[1..]);
      ShownAppend(head, rest);
      ShownOne(Token(tokens[0]));
    }
  }

  lemma ShownProgress(node: Node, tokens: seq<string>)
    ensures ShownBy(EventsOf(Progress(node, tokens))) ==
            Shown(if node == Generate then Joined(tokens) else "", [], [], if node == Compact then [] else [node])
  {
    hide EventsOf;
    var contents, front := Contents(node, tokens), if node == Compact then [] else [Custom(node)];
    assert Progress(node, tokens) == front + contents;
    EventsConcat(front, contents);
    EventsFrom(front, 0);
    EventsFrom(front, |front|);
    assert front[0..] == front && front[|front|..] == [];
    ShownContents(node, tokens);
    ShownAppend(EventsOf(front), EventsOf(contents));
    ShownOne(NodeStatus(node));
    assert node != Compact ==> EventsOf(front) == [NodeStatus(node)] + [];
  }

  lemma {:induction false} ShownCalls(calls: seq<ToolCall>)
    ensures ShownBy(CallEvents(calls)) == NOTHING.(called := Ids(calls))
  {
    if calls != [] {
      ShownCalls(calls[1..]);
      assert CallEvents(calls) == [ToolCalled(calls[0].id)] + CallEvents(calls[1..]);
      ShownOne(ToolCalled(calls[0].id));
      ShownAppend([ToolCalled(calls[0].id)], CallEvents(calls[1..]));
    }
  }

  lemma {:induction false} ShownResults(calls: seq<ToolCall>)
    ensures ShownBy(ResultEvents(IdsOf(calls))) == NOTHING.(returned := Ids(calls))
  {
    if calls != [] {
      ShownResults(calls[1..]);
      assert ResultEvents(IdsOf(calls)) == [ToolResult(calls[0].id)] + ResultEvents(IdsOf(calls[1..]));
      ShownOne(ToolResult(calls[0].id));
      ShownAppend([ToolResult(calls[0].id)], ResultEvents(IdsOf(calls[1..])));
    }
  }

  /** A node's last chunk shows the calls or the results, if it is theirs. */
  lemma ShownLast(state: Checkpoint, world: World)
    requires Runs(state, world)
    ensures ShownBy(EventsOfChunk(LastChunk(state, world))) ==
            Shown("",
                  if state.next == Generate then Ids(world.requested) else [],
                  if state.next == Tools && After(state, world).suspended == None then Ids(state.requested) else [],
                  [])
    ensures Stops(LastChunk(state, world)) ==> After(state, world).next == End || After(state, world).suspended.Some?
  {
    hide Replay, WithSaveAck, Ids, ShownBy;
    var events := EventsOfChunk(LastChunk(state, world));
    ShownCalls(world.requested);
    ShownResults(state.requested);
    ShownOne(Done(After(state, world).answer));
    ShownOne(Interrupt(KindOf(state.next)));
    ShownOne(Refused(After(state, world).blockReason));
  }

  /**
   The stream of a turn shows exactly what its nodes did, in order: its tokens, put together, are what the answer model
   said; its calls and results are those asked for and returned; its statuses are the nodes that ran.
   */
  lemma {:induction false} TurnShows(state: Checkpoint, worlds: seq<World>)
    requires Completes(state, worlds)
    ensures ShownBy(EventsOf(TurnChunks(state, worlds))) == DoneIn(state, worlds)
    decreases |worlds|
  {
    hide EventsOf, EventsOfChunk, Progress, NodeChunks, LastChunk, After, ShownBy, Then;
    ShownOne(Token(""));
    if state.next == End || state.suspended.Some? {
      EventsFrom([], 0);
    } else {
      var world := worlds[0];
      var after := After(state, world);
      var rest := TurnChunks(after, worlds[1..]);
      NodeEvents(state, world, rest);
      ShownProgress(state.next, world.tokens);
      ShownLast(state, world);
      TurnShows(after, worlds[1..]);
      var shown, last := EventsOf(Progress(state.next, world.tokens)), EventsOfChunk(LastChunk(state, world));
      var more := if Stops(LastChunk(state, world)) then [] else EventsOf(rest);
      ShownAppend(last, more);
      ShownAppend(shown, last + more);
      ThenGroups(ShownBy(shown), ShownBy(last), ShownBy(more));
      NodeShows(state, world, shown, last);
    }
  }

  lemma NodeShows(state: Checkpoint, world: World, shown: seq<Event>, last: seq<Event>)
    requires Runs(state, world)
    requires shown == EventsOf(Progress(state.next, world.tokens)) && last == EventsOfChunk(LastChunk(state, world))
    ensures Then(ShownBy(shown), ShownBy(last)) == DoneBy(state, world)
  {
    hide EventsOf, EventsOfChunk, Progress, LastChunk, ShownBy;
    ShownProgress(state.next, world.tokens);
    ShownLast(state, world);
  }

  // ---------------------------------------------------------------- the verdict

  /** A suspended node asked last, and its interrupt is of the kind it asked. */
  lemma KindIsAsked(state: Checkpoint, world: World)
    requires Runs(state, world) && After(state, world).suspended != None
    ensures var entries := RunNode(state, world).entries;
            entries != [] && entries[|entries| - 1] == Asked(KindOf(state.next)) &&
            After(state, world).next == state.next
  {
    hide Replay;
  }

  /**
   The last event of a new turn's stream, and no other, says how the turn was left: the question it waits on, the
   reason it was refused, or the answer.
   */
  lemma LastEventIs(c: Conversation, worlds: seq<World>)
    requires Completes(Next(c, NewTurn).checkpoint, worlds)
    ensures var start := Next(c, NewTurn).checkpoint;
            var events, final := EventsOf(TurnChunks(start, worlds)), EventStream.Outcome(start, worlds);
            events != [] &&
            (forall i :: 0 <= i < |events| - 1 ==> !events[i].Done? && !events[i].Refused? && !events[i].Interrupt?) &&
            match events[|events| - 1]
            case Interrupt(kind) => final.suspended != None && kind == KindOf(final.next)
            case Refused(reason) => final.suspended == None && final.blockReason == reason != ""
            case Done(answer) => final.suspended == None && final.blockReason == "" && answer == final.answer
            case _ => false
  {
    TurnIsGrammatical(c, worlds);
  }
}
