/** A streamed turn: the graph's chunks as the runtime yields them, translated to client events. */
module EventStream {
  import opened AgentGraph
  import opened Sequences
  import opened Shared
  import opened ToolReplay

  /** The part of a finished node's state change that the stream looks at. */
  datatype Delta =
    | Plain
    | BlockReason(reason: string)
    | Requested(calls: seq<ToolCall>)
    | Results(ids: seq<string>)
    | AnswerSet(text: string)

  datatype Chunk =
    | Custom(node: Node)
    | Content(node: Node, text: string)
    | Update(node: Node, delta: Delta)
    | Interrupted(kind: Kind)

  datatype Event =
    | NodeStatus(node: Node)
    | Token(text: string)
    | ToolCalled(id: string)
    | ToolResult(id: string)
    | Done(answer: string)
    | Refused(reason: string)
    | Interrupt(kind: Kind)

  // ------------------------------------------------------ translating chunks

  function CallEvents(calls: seq<ToolCall>): (events: seq<Event>)
    ensures |events| == |calls|
    ensures forall i :: 0 <= i < |calls| ==> events[i] == ToolCalled(calls[i].id)
  {
    seq(|calls|, i requires 0 <= i < |calls| => ToolCalled(calls[i].id))
  }

  function ResultEvents(ids: seq<string>): (events: seq<Event>)
    ensures |events| == |ids|
    ensures forall i :: 0 <= i < |ids| ==> events[i] == ToolResult(ids[i])
  {
    seq(|ids|, i requires 0 <= i < |ids| => ToolResult(ids[i]))
  }

  /** A completed node's events: calls from the answer model, results from the tools, the answer at the end. */
  function EventsFromUpdate(node: Node, delta: Delta): seq<Event> {
    if node == Generate && delta.Requested? then CallEvents(delta.calls)
    else if node == Tools && delta.Results? then ResultEvents(delta.ids)
    else if node == GuardrailOut && delta.AnswerSet? then [Done(delta.text)]
    else []
  }

  /** Only the answer model's non-empty text is shown. */
  function TokenFrom(node: Node, text: string): seq<Event> {
    if node == Generate && text != "" then [Token(text)] else []
  }

  predicate Refuses(chunk: Chunk) {
    chunk.Update? && chunk.node == GuardrailIn && chunk.delta.BlockReason? && chunk.delta.reason != ""
  }

  /** The stream stops at the first interrupt or refusal. */
  predicate Stops(chunk: Chunk) {
    chunk.Interrupted? || Refuses(chunk)
  }

  function EventsOfChunk(chunk: Chunk): seq<Event> {
    match chunk
    case Custom(node) => [NodeStatus(node)]
    case Content(node, text) => TokenFrom(node, text)
    case Interrupted(kind) => [Interrupt(kind)]
    case Update(node, delta) => if Refuses(chunk) then [Refused(delta.reason)] else EventsFromUpdate(node, delta)
  }

  function EventsOf(chunks: seq<Chunk>): seq<Event> {
    if chunks == [] then []
    else EventsOfChunk(chunks[0]) + if Stops(chunks[0]) then [] else EventsOf(chunks[1..])
  }

  lemma EventsFrom(chunks: seq<Chunk>, i: nat)
    requires i <= |chunks|
    ensures EventsOf(chunks[i..]) ==
            if i == |chunks| then []
            else EventsOfChunk(chunks[i]) + if Stops(chunks[i]) then [] else EventsOf(chunks[i + 1..])
  {
    if i < |chunks| {
      assert chunks[i..][1..] == chunks[i + 1..];
    }
  }

  /** The streaming loop, with its early returns. */
  method Stream(chunks: seq<Chunk>) returns (events: seq<Event>)
    ensures events == EventsOf(chunks)
  {
    hide EventsOf, EventsFromUpdate, TokenFrom;
    events := [];
    var i := 0;
    assert chunks[0..] == chunks;
    while i < |chunks|
      invariant 0 <= i <= |chunks|
      invariant events + EventsOf(chunks[i..]) == EventsOf(chunks)
    {
      var chunk := chunks[i];
      EventsFrom(chunks, i);
      Regroup(events, EventsOfChunk(chunk), if Stops(chunk) then [] else EventsOf(chunks[i + 1..]));
      if chunk.Content? {
        events := events + TokenFrom(chunk.node, chunk.text);
      } else if chunk.Custom? {
        events := events + [NodeStatus(chunk.node)];
      } else if chunk.Interrupted? {
        events := events + [Interrupt(chunk.kind)];
        return;
      } else if chunk.node == GuardrailIn && chunk.delta.BlockReason? && chunk.delta.reason != "" {
        events := events + [Refused(chunk.delta.reason)];
        return;
      } else {
        events := events + EventsFromUpdate(chunk.node, chunk.delta);
      }
      i := i + 1;
    }
    EventsFrom(chunks, i);
  }

  // ---------------------------------------------------- what the graph yields

  function IdsOf(requested: seq<ToolCall>): (ids: seq<string>)
    ensures |ids| == |requested|
    ensures forall i :: 0 <= i < |ids| ==> ids[i] == requested[i].id
  {
    seq(|requested|, i requires 0 <= i < |requested| => requested[i].id)
  }

  function DeltaOf(state: Checkpoint, after: Checkpoint): Delta {
    match state.next
    case GuardrailIn => BlockReason(after.blockReason)
    case Generate => Requested(after.requested)
    case Tools => Results(IdsOf(state.requested))
    case GuardrailOut => AnswerSet(after.answer)
    case _ => Plain
  }

  predicate Runs(state: Checkpoint, world: World) {
    state.next != End && state.suspended.None? && (state.next == Tools ==> |world.seen| == |state.requested|)
  }

  function After(state: Checkpoint, world: World): Checkpoint
    requires Runs(state, world)
  {
    RunNode(state, world).checkpoint
  }

  function Contents(node: Node, tokens: seq<string>): (chunks: seq<Chunk>)
    ensures |chunks| == |tokens|
    ensures forall i :: 0 <= i < |tokens| ==> chunks[i] == Content(node, tokens[i])
  {
    seq(|tokens|, i requires 0 <= i < |tokens| => Content(node, tokens[i]))
  }

  function KindOf(node: Node): Kind {
    if node == Tools then ToolQuestion else if node == PersistMemory then PageRangeConfirm else SpoilerWarning
  }

  /** What a node shows while it runs: its status, unless it is the silent last one, and any model output. */
  function Progress(node: Node, tokens: seq<string>): (chunks: seq<Chunk>)
    ensures forall i :: 0 <= i < |chunks| ==> chunks[i].Custom? || (chunks[i].Content? && chunks[i].node == node)
  {
    (if node == Compact then [] else [Custom(node)]) + Contents(node, tokens)
  }

  /** How a node ends: its update, or the interrupt it suspends on. */
  function LastChunk(state: Checkpoint, world: World): Chunk
    requires Runs(state, world)
  {
    var after := After(state, world);
    if after.suspended.Some? then Interrupted(KindOf(state.next)) else Update(state.next, DeltaOf(state, after))
  }

  function NodeChunks(state: Checkpoint, world: World): seq<Chunk>
    requires Runs(state, world)
  {
    Progress(state.next, world.tokens) + [LastChunk(state, world)]
  }

  /** A turn's chunks, one node after another until it ends or suspends. */
  function TurnChunks(state: Checkpoint, worlds: seq<World>): seq<Chunk>
    requires Completes(state, worlds)
    decreases |worlds|
  {
    if state.next == End || state.suspended.Some? then []
    else NodeChunks(state, worlds[0]) + TurnChunks(After(state, worlds[0]), worlds[1..])
  }

  /** The worlds lead the turn to its end or to a suspension, and no node raises on the way. */
  predicate Completes(state: Checkpoint, worlds: seq<World>)
    decreases |worlds|
  {
    state.next == End || state.suspended.Some? ||
    (worlds != [] && Runs(state, worlds[0]) && Completes(After(state, worlds[0]), worlds[1..]))
  }

  /** Where the turn ends or suspends. */
  function Outcome(state: Checkpoint, worlds: seq<World>): Checkpoint
    requires Completes(state, worlds)
    decreases |worlds|
  {
    if state.next == End || state.suspended.Some? then state else Outcome(After(state, worlds[0]), worlds[1..])
  }

  // ------------------------------------------------------------- the grammar

  predicate Terminal(event: Event) {
    event.Done? || event.Refused? || event.Interrupt?
  }

  predicate OneTerminal(events: seq<Event>) {
    events != [] && Terminal(events[|events| - 1]) &&
    forall i :: 0 <= i < |events| - 1 ==> !Terminal(events[i])
  }

  predicate RefusalIsAlone(events: seq<Event>) {
    events != [] && events[|events| - 1].Refused? ==> forall i :: 0 <= i < |events| - 1 ==> events[i].NodeStatus?
  }

  /** A result's id was called before it in the stream, or is among `open`. */
  predicate ResultsCalled(events: seq<Event>, open: set<string>) {
    forall i :: 0 <= i < |events| && events[i].ToolResult? ==>
      events[i].id in open || exists j :: 0 <= j < i && events[j] == ToolCalled(events[i].id)
  }

  /** Up to the chunk that stops it, the stream of a concatenation is the concatenation of the streams. */
  lemma {:induction false} EventsConcat(front: seq<Chunk>, back: seq<Chunk>)
    requires forall i :: 0 <= i < |front| ==> !Stops(front[i])
    ensures EventsOf(front + back) == EventsOf(front) + EventsOf(back)
  {
    hide EventsOf, EventsOfChunk, Stops;
    var all := front + back;
    EventsFrom(all, 0);
    EventsFrom(front, 0);
    assert all[0..] == all && front[0..] == front;
    if front == [] {
      assert all == back;
    } else {
      EventsConcat(front[1..], back);
      assert all[1..] == front[1..] + back;
    }
  }

  /** A running node shows its status and the answer model's tokens, nothing else. */
  lemma {:induction false} ProgressEvents(chunks: seq<Chunk>, node: Node)
    requires forall i :: 0 <= i < |chunks| ==> chunks[i].Custom? || (chunks[i].Content? && chunks[i].node == node)
    ensures forall i :: 0 <= i < |EventsOf(chunks)| ==>
              EventsOf(chunks)[i].NodeStatus? || (EventsOf(chunks)[i].Token? && node == Generate)
  {
    if chunks != [] {
      ProgressEvents(chunks[1..], node);
    }
  }

  /** A node's events, then those of what follows unless it stops the stream. */
  lemma NodeEvents(state: Checkpoint, world: World, rest: seq<Chunk>)
    requires Runs(state, world)
    ensures EventsOf(NodeChunks(state, world) + rest) ==
            EventsOf(Progress(state.next, world.tokens)) +
            (EventsOfChunk(LastChunk(state, world)) +
             if Stops(LastChunk(state, world)) then [] else EventsOf(rest))
  {
    hide LastChunk, EventsOf, EventsOfChunk, Progress;
    var front, tail := Progress(state.next, world.tokens), [LastChunk(state, world)] + rest;
    EventsConcat(front, tail);
    assert NodeChunks(state, world) + rest == front + tail;
    EventsFrom(tail, 0);
    assert tail[0..] == tail && tail[1..] == rest;
  }

  // ------------------------------------------------- putting a turn together

  /** The calls a turn is waiting on when its tools node is next. */
  function Open(state: Checkpoint): set<string> {
    if state.next == Tools then set i | 0 <= i < |state.requested| :: state.requested[i].id else {}
  }

  predicate BeforeVerdict(node: Node) {
    node in {NormalizeInput, GuardrailIn}
  }

  /** A turn that has not been resumed, and past the input guardrail was let through. */
  predicate Streaming(state: Checkpoint) {
    state.rounds == [] && (!BeforeVerdict(state.next) && state.next != End ==> state.blockReason == "")
  }

  /** The event that says how the turn stands: waiting, refused or answered. */
  function Verdict(final: Checkpoint): Event {
    if final.suspended.Some? then Interrupt(KindOf(final.next))
    else if final.blockReason != "" then Refused(final.blockReason)
    else Done(final.answer)
  }

  /** What is left of a turn's stream once `state` is reached, when the turn leaves `final`. */
  predicate Grammatical(state: Checkpoint, events: seq<Event>, final: Checkpoint) {
    OneTerminal(events) && RefusalIsAlone(events) && ResultsCalled(events, Open(state)) &&
    events[|events| - 1] == Verdict(final) &&
    (!BeforeVerdict(state.next) ==> !events[|events| - 1].Refused?)
  }

  /** A stretch of events that does not end the stream. */
  predicate Leads(state: Checkpoint, events: seq<Event>, after: Checkpoint) {
    (forall i :: 0 <= i < |events| ==> !Terminal(events[i])) &&
    (forall i :: 0 <= i < |events| && events[i].ToolResult? ==> events[i].id in Open(state)) &&
    (forall id :: id in Open(after) ==> ToolCalled(id) in events) &&
    (BeforeVerdict(state.next) ==> forall i :: 0 <= i < |events| ==> events[i].NodeStatus?) &&
    (BeforeVerdict(after.next) ==> BeforeVerdict(state.next))
  }

  lemma LeadsOn(state: Checkpoint, events: seq<Event>, after: Checkpoint, rest: seq<Event>, final: Checkpoint)
    requires Leads(state, events, after) && Grammatical(after, rest, final)
    ensures Grammatical(state, events + rest, final)
  {
    var all, n := events + rest, |events|;
    forall i | 0 <= i < |all| && all[i].ToolResult?
      ensures all[i].id in Open(state) || exists j :: 0 <= j < i && all[j] == ToolCalled(all[i].id)
    {
      if n <= i {
        var id := rest[i - n].id;
        if j :| 0 <= j < i - n && rest[j] == ToolCalled(id) {
          assert all[n + j] == ToolCalled(id);
        } else {
          assert id in Open(after);
          var j :| 0 <= j < n && events[j] == ToolCalled(id);
          assert all[j] == ToolCalled(id);
        }
      }
    }
    assert all[|all| - 1] == rest[|rest| - 1];
  }

  /** A node that neither stops the stream nor answers leads on to the next one. */
  lemma NodeLeads(state: Checkpoint, world: World)
    requires Runs(state, world) && Streaming(state) && state.next !in {GuardrailOut, Compact}
    requires !Stops(LastChunk(state, world))
    ensures var after := After(state, world);
            Streaming(after) && after.suspended.None? && after.next !in {Compact, End} &&
            Leads(state, EventsOf(Progress(state.next, world.tokens)) + EventsOfChunk(LastChunk(state, world)), after)
  {
    hide Replay, EventsOf, Progress;
    if state.next == Generate {
      GenerateLeads(state, world);
    } else {
      ProgressEvents(Progress(state.next, world.tokens), state.next);
    }
  }

  lemma GenerateLeads(state: Checkpoint, world: World)
    requires Runs(state, world) && Streaming(state) && state.next == Generate
    ensures var after := After(state, world);
            Streaming(after) && after.suspended.None? && after.next !in {Compact, End} &&
            Leads(state, EventsOf(Progress(state.next, world.tokens)) + EventsOfChunk(LastChunk(state, world)), after)
  {
    hide EventsOf, Progress;
    var after, progress := After(state, world), EventsOf(Progress(state.next, world.tokens));
    ProgressEvents(Progress(state.next, world.tokens), state.next);
    var added := EventsOfChunk(LastChunk(state, world));
    assert added == CallEvents(after.requested);
    forall id | id in Open(after)
      ensures ToolCalled(id) in progress + added
    {
      var i :| 0 <= i < |after.requested| && after.requested[i].id == id;
      assert (progress + added)[|progress| + i] == ToolCalled(id);
    }
  }

  /** A node that stops the stream, or the one that answers, ends it. */
  lemma NodeEnds(state: Checkpoint, world: World)
    requires Runs(state, world) && Streaming(state) && state.next != Compact
    requires Stops(LastChunk(state, world)) || state.next == GuardrailOut
    ensures var after := After(state, world);
            Grammatical(state,
              EventsOf(Progress(state.next, world.tokens)) + EventsOfChunk(LastChunk(state, world)), after) &&
            if Stops(LastChunk(state, world)) then after.next == End || after.suspended.Some?
            else after.next == Compact && after.suspended.None?
  {
    hide Replay, EventsOf, WithSaveAck;
    ProgressEvents(Progress(state.next, world.tokens), state.next);
    assert |EventsOfChunk(LastChunk(state, world))| == 1;
  }

  /** After the answer only the silent node is left. */
  lemma NothingFollows(state: Checkpoint, worlds: seq<World>)
    requires Completes(state, worlds) && state.next == Compact && state.suspended.None?
    ensures EventsOf(TurnChunks(state, worlds)) == []
    ensures Verdict(Outcome(state, worlds)) == Verdict(state)
  {
    NodeEvents(state, worlds[0], TurnChunks(After(state, worlds[0]), worlds[1..]));
    SilentProgress(worlds[0].tokens);
  }

  lemma {:induction false} SilentProgress(tokens: seq<string>)
    ensures EventsOf(Progress(Compact, tokens)) == []
  {
    if tokens == [] {
    } else {
      SilentProgress(tokens[1..]);
      assert Progress(Compact, tokens)[1..] == Progress(Compact, tokens[1..]);
    }
  }

  lemma {:induction false} RestOfTurn(state: Checkpoint, worlds: seq<World>)
    requires Completes(state, worlds) && Streaming(state) && state.suspended.None?
    requires state.next !in {Compact, End}
    ensures Grammatical(state, EventsOf(TurnChunks(state, worlds)), Outcome(state, worlds))
    decreases |worlds|
  {
    hide Leads, Streaming, Verdict, After, LastChunk, EventsOf, EventsOfChunk, Progress, NodeChunks;
    var world := worlds[0];
    var after, rest := After(state, world), TurnChunks(After(state, world), worlds[1..]);
    var progress, added := EventsOf(Progress(state.next, world.tokens)), EventsOfChunk(LastChunk(state, world));
    NodeEvents(state, world, rest);
    if Stops(LastChunk(state, world)) {
      NodeEnds(state, world);
      assert progress + (added + []) == progress + added;
    } else if state.next == GuardrailOut {
      NodeEnds(state, world);
      NothingFollows(after, worlds[1..]);
      assert progress + (added + []) == progress + added;
    } else {
      NodeLeads(state, world);
      RestOfTurn(after, worlds[1..]);
      LeadsOn(state, progress + added, after, EventsOf(rest), Outcome(after, worlds[1..]));
      assert progress + (added + EventsOf(rest)) == (progress + added) + EventsOf(rest);
    }
  }

  /**
   The stream of a new turn, in any conversation: any number of other events, then exactly one answer, refusal or
   interrupt and nothing after it, the one that says how the checkpoint was left; before a refusal only statuses; every
   tool result after the call with its id.
   */
  lemma TurnIsGrammatical(c: Conversation, worlds: seq<World>)
    requires Completes(Next(c, NewTurn).checkpoint, worlds)
    ensures var start := Next(c, NewTurn).checkpoint;
            var events := EventsOf(TurnChunks(start, worlds));
            OneTerminal(events) && events[|events| - 1] == Verdict(Outcome(start, worlds)) &&
            RefusalIsAlone(events) && ResultsCalled(events, {})
  {
    RestOfTurn(Next(c, NewTurn).checkpoint, worlds);
  }

  // ------------------------------------------------- a refused turn's stream

  /** A new turn that is refused streams exactly two statuses and the refusal. */
  lemma RefusedStream(c: Conversation, worlds: seq<World>)
    requires Completes(Next(c, NewTurn).checkpoint, worlds)
    ensures var start := Next(c, NewTurn).checkpoint;
            var events := EventsOf(TurnChunks(start, worlds));
            events[|events| - 1].Refused? ==>
              events ==
              [NodeStatus(NormalizeInput), NodeStatus(GuardrailIn), Refused(Outcome(start, worlds).blockReason)]
  {
    hide EventsOf, WithSaveAck;
    var start := Next(c, NewTurn).checkpoint;
    var screened := After(start, worlds[0]);
    var judged := After(screened, worlds[1]);
    RestOfTurn(start, worlds);
    RestOfTurn(screened, worlds[1..]);
    StatusOnly(NormalizeInput, worlds[0].tokens);
    StatusOnly(GuardrailIn, worlds[1].tokens);
    assert worlds[1..][0] == worlds[1] && worlds[1..][1..] == worlds[2..];
    NodeEvents(start, worlds[0], TurnChunks(screened, worlds[1..]));
    NodeEvents(screened, worlds[1], TurnChunks(judged, worlds[2..]));
    if !Stops(LastChunk(screened, worlds[1])) {
      RestOfTurn(judged, worlds[2..]);
    }
  }

  /** A node other than the answer model's shows its status and nothing else while it runs. */
  lemma {:induction false} StatusOnly(node: Node, tokens: seq<string>)
    requires node != Generate && node != Compact
    ensures EventsOf(Progress(node, tokens)) == [NodeStatus(node)]
  {
    hide EventsOf, Progress;
    NoTokens(node, tokens);
    ProgressSplits(node, tokens);
    EventsFrom([Custom(node)] + Contents(node, tokens), 0);
    assert ([Custom(node)] + Contents(node, tokens))[0..] == [Custom(node)] + Contents(node, tokens);
    assert ([Custom(node)] + Contents(node, tokens))[1..] == Contents(node, tokens);
  }

  lemma ProgressSplits(node: Node, tokens: seq<string>)
    requires node != Compact
    ensures Progress(node, tokens) == [Custom(node)] + Contents(node, tokens)
  {
  }

  lemma {:induction false} NoTokens(node: Node, tokens: seq<string>)
    requires forall i :: 0 <= i < |tokens| ==> TokenFrom(node, tokens[i]) == []
    ensures EventsOf(Contents(node, tokens)) == []
  {
    if tokens != [] {
      NoTokens(node, tokens[1..]);
      assert Contents(node, tokens)[1..] == Contents(node, tokens[1..]);
    }
  }

  // ------------------------------------------------- tools, and then tokens?

  predicate ToolEvent(event: Event) {
    event.ToolCalled? || event.ToolResult?
  }

  /** Every tool event comes before every token. */
  predicate ToolsFirst(events: seq<Event>) {
    forall i, j :: 0 <= i < j < |events| && events[i].Token? ==> !ToolEvent(events[j])
  }

  predicate Silent(tokens: seq<string>) {
    forall i :: 0 <= i < |tokens| ==> tokens[i] == ""
  }

  /** Whenever the model asks for tools, it says nothing with them. */
  predicate CallsSilently(state: Checkpoint, worlds: seq<World>)
    requires Completes(state, worlds)
    decreases |worlds|
  {
    state.next == End || state.suspended.Some? ||
    ((state.next == Generate && worlds[0].requested != [] ==> Silent(worlds[0].tokens)) &&
     CallsSilently(After(state, worlds[0]), worlds[1..]))
  }

  predicate NoneOf(events: seq<Event>, tokens: bool, tools: bool) {
    forall i :: 0 <= i < |events| ==> !(tokens && events[i].Token?) && !(tools && ToolEvent(events[i]))
  }

  lemma TokenlessHead(head: seq<Event>, rest: seq<Event>)
    requires NoneOf(head, true, false)
    ensures ToolsFirst(head + rest) <==> ToolsFirst(rest)
  {
    var all, n := head + rest, |head|;
    assert forall i :: 0 <= i < |rest| ==> all[n + i] == rest[i];
    if ToolsFirst(all) {
      forall i, j | 0 <= i < j < |rest| && rest[i].Token?
        ensures !ToolEvent(rest[j])
      {
        assert all[n + i].Token? && all[n + j] == rest[j];
      }
    }
  }

  lemma {:induction false} TokensShow(tokens: seq<string>)
    ensures NoneOf(EventsOf(Contents(Generate, tokens)), true, false) <==> Silent(tokens)
  {
    if tokens != [] {
      var events, rest := EventsOf(Contents(Generate, tokens)), EventsOf(Contents(Generate, tokens[1..]));
      TokensShow(tokens[1..]);
      assert Contents(Generate, tokens)[1..] == Contents(Generate, tokens[1..]);
      assert events == TokenFrom(Generate, tokens[0]) + rest;
      assert Silent(tokens) <==> tokens[0] == "" && Silent(tokens[1..]);
      if tokens[0] == "" {
        assert events == rest;
      } else {
        assert events[0].Token?;
      }
    }
  }

  /** The answer model shows a token exactly when it says something. */
  lemma GenerateShows(tokens: seq<string>)
    ensures NoneOf(EventsOf(Progress(Generate, tokens)), true, false) <==> Silent(tokens)
    ensures NoneOf(EventsOf(Progress(Generate, tokens)), false, true)
  {
    hide EventsOf, Progress;
    var chunks := Contents(Generate, tokens);
    TokensShow(tokens);
    ProgressSplits(Generate, tokens);
    EventsFrom([Custom(Generate)] + chunks, 0);
    assert ([Custom(Generate)] + chunks)[0..] == [Custom(Generate)] + chunks;
    assert ([Custom(Generate)] + chunks)[1..] == chunks;
    var events := EventsOf([Custom(Generate)] + chunks);
    assert events == [NodeStatus(Generate)] + EventsOf(chunks);
    assert forall i :: 0 <= i < |EventsOf(chunks)| ==> events[i + 1] == EventsOf(chunks)[i];
    ProgressEvents(Progress(Generate, tokens), Generate);
  }

  /** Once the model has stopped asking for tools, no tool event comes any more. */
  lemma {:induction false} NoToolsLeft(state: Checkpoint, worlds: seq<World>)
    requires Completes(state, worlds) && Streaming(state) && state.suspended.None?
    requires state.next in {PersistMemory, GuardrailOut}
    ensures NoneOf(EventsOf(TurnChunks(state, worlds)), true, true) && CallsSilently(state, worlds)
    decreases |worlds|
  {
    hide EventsOf, EventsOfChunk, Progress, NodeChunks, After, LastChunk, Streaming;
    var world := worlds[0];
    var after, rest := After(state, world), TurnChunks(After(state, world), worlds[1..]);
    NodeEvents(state, world, rest);
    StatusOnly(state.next, world.tokens);
    LateNode(state, world);
    if Stops(LastChunk(state, world)) {
    } else if state.next == GuardrailOut {
      NothingFollows(after, worlds[1..]);
      SilentEnd(after, worlds[1..]);
    } else {
      NoToolsLeft(after, worlds[1..]);
    }
  }

  /** What the two nodes before the silent one may do. */
  lemma LateNode(state: Checkpoint, world: World)
    requires Runs(state, world) && Streaming(state) && state.next in {PersistMemory, GuardrailOut}
    ensures NoneOf(EventsOfChunk(LastChunk(state, world)), true, true)
    ensures var after := After(state, world);
            if Stops(LastChunk(state, world)) then after.suspended.Some?
            else Streaming(after) && after.suspended.None? &&
                 after.next == if state.next == PersistMemory then GuardrailOut else Compact
  {
    hide WithSaveAck;
  }

  lemma SilentEnd(state: Checkpoint, worlds: seq<World>)
    requires Completes(state, worlds) && state.next == Compact && state.suspended.None?
    ensures CallsSilently(state, worlds)
  {
  }

  /** The answer model's own events, and what they mean for the order of the whole. */
  lemma GenerateOrders(state: Checkpoint, worlds: seq<World>)
    requires Completes(state, worlds) && Streaming(state) && state.suspended.None? && state.next == Generate
    ensures var after, silent := After(state, worlds[0]), Silent(worlds[0].tokens);
            var events, rest := EventsOf(TurnChunks(state, worlds)), EventsOf(TurnChunks(after, worlds[1..]));
            !Stops(LastChunk(state, worlds[0])) &&
            if worlds[0].requested != [] then
              after.next == Tools && (ToolsFirst(events) <==> silent && ToolsFirst(rest)) &&
              (CallsSilently(state, worlds) <==> silent && CallsSilently(after, worlds[1..]))
            else after.next == PersistMemory && ToolsFirst(events) && CallsSilently(state, worlds)
  {
    hide EventsOf, Progress, NodeChunks, ToolsFirst;
    var world := worlds[0];
    var after := After(state, world);
    var rest := EventsOf(TurnChunks(after, worlds[1..]));
    var shown, calls := EventsOf(Progress(Generate, world.tokens)), CallEvents(world.requested);
    NodeEvents(state, world, TurnChunks(after, worlds[1..]));
    GenerateShows(world.tokens);
    var events := EventsOf(TurnChunks(state, worlds));
    assert events == shown + (calls + rest);
    if world.requested == [] {
      NoToolsLeft(after, worlds[1..]);
      assert calls + rest == rest;
      NothingAfterTokens(shown, rest);
    } else if Silent(world.tokens) {
      assert shown + (calls + rest) == (shown + calls) + rest;
      TokenlessHead(shown + calls, rest);
    } else {
      CallAfterToken(shown, calls + rest);
    }
  }

  lemma NothingAfterTokens(shown: seq<Event>, rest: seq<Event>)
    requires NoneOf(shown, false, true) && NoneOf(rest, true, true)
    ensures ToolsFirst(shown + rest)
  {
  }

  lemma CallAfterToken(shown: seq<Event>, rest: seq<Event>)
    requires !NoneOf(shown, true, false) && rest != [] && ToolEvent(rest[0])
    ensures !ToolsFirst(shown + rest)
  {
    var i :| 0 <= i < |shown| && shown[i].Token?;
    assert (shown + rest)[i].Token? && (shown + rest)[|shown|] == rest[0];
  }

  /** Any other node before the end shows no token. */
  lemma OtherNodeOrders(state: Checkpoint, worlds: seq<World>)
    requires Completes(state, worlds) && Streaming(state) && state.suspended.None?
    requires state.next !in {Generate, PersistMemory, GuardrailOut, Compact, End}
    ensures var events, after := EventsOf(TurnChunks(state, worlds)), After(state, worlds[0]);
            if Stops(LastChunk(state, worlds[0])) then ToolsFirst(events) && CallsSilently(state, worlds)
            else (ToolsFirst(events) <==> ToolsFirst(EventsOf(TurnChunks(after, worlds[1..])))) &&
                 (CallsSilently(state, worlds) <==> CallsSilently(after, worlds[1..]))
  {
    hide EventsOf, EventsOfChunk, Progress, NodeChunks, ToolsFirst, After, LastChunk;
    var world := worlds[0];
    var after := After(state, world);
    var shown, added := EventsOf(Progress(state.next, world.tokens)), EventsOfChunk(LastChunk(state, world));
    var rest := EventsOf(TurnChunks(after, worlds[1..]));
    NodeEvents(state, world, TurnChunks(after, worlds[1..]));
    ProgressEvents(Progress(state.next, world.tokens), state.next);
    OtherNode(state, world);
    if Stops(LastChunk(state, world)) {
      assert shown + (added + []) == shown + added;
      NoTokensNoOrder(shown + added);
    } else {
      assert shown + (added + rest) == (shown + added) + rest;
      TokenlessHead(shown + added, rest);
    }
  }

  lemma OtherNode(state: Checkpoint, world: World)
    requires Runs(state, world) && Streaming(state) && state.next != Generate
    ensures NoneOf(EventsOfChunk(LastChunk(state, world)), true, false)
    ensures Stops(LastChunk(state, world)) ==> After(state, world).next == End || After(state, world).suspended.Some?
  {
    hide Replay, WithSaveAck;
  }

  /** A stream shows tools first and tokens after them exactly when the model says nothing while it asks for tools. */
  lemma ToolsFirstIff(c: Conversation, worlds: seq<World>)
    requires Completes(Next(c, NewTurn).checkpoint, worlds)
    ensures var start := Next(c, NewTurn).checkpoint;
            ToolsFirst(EventsOf(TurnChunks(start, worlds))) <==> CallsSilently(start, worlds)
  {
    ToolsFirstIfSilent(Next(c, NewTurn).checkpoint, worlds);
  }

  lemma {:induction false} ToolsFirstIfSilent(state: Checkpoint, worlds: seq<World>)
    requires Completes(state, worlds) && Streaming(state) && state.suspended.None?
    requires state.next !in {Compact, End}
    ensures ToolsFirst(EventsOf(TurnChunks(state, worlds))) <==> CallsSilently(state, worlds)
    decreases |worlds|
  {
    hide Leads, Streaming, EventsOf, EventsOfChunk, Progress, NodeChunks, After, LastChunk, ToolsFirst;
    if state.next in {PersistMemory, GuardrailOut} {
      NoToolsLeft(state, worlds);
      NoTokensNoOrder(EventsOf(TurnChunks(state, worlds)));
    } else if state.next == Generate {
      GenerateOrders(state, worlds);
      if After(state, worlds[0]).next == Tools {
        NodeLeads(state, worlds[0]);
        ToolsFirstIfSilent(After(state, worlds[0]), worlds[1..]);
      }
    } else {
      OtherNodeOrders(state, worlds);
      if !Stops(LastChunk(state, worlds[0])) {
        NodeLeads(state, worlds[0]);
        ToolsFirstIfSilent(After(state, worlds[0]), worlds[1..]);
      }
    }
  }

  lemma NoTokensNoOrder(events: seq<Event>)
    requires NoneOf(events, true, false) || NoneOf(events, false, true)
    ensures ToolsFirst(events)
  {
  }

  /** Let in, says something, and asks for a web search with it. */
  const TALKING := World(false, true, true, "", "hm", [ToolCall("call", WebSearch("books"), None)], ["hm"],
                         [Observation(false, false, None)], None, false, false, false)

  /** In any conversation such a turn runs to the search's approval, and its stream shows a token before the call. */
  lemma TalkingTurn(c: Conversation) returns (worlds: seq<World>)
    ensures Completes(Next(c, NewTurn).checkpoint, worlds)
    ensures !ToolsFirst(EventsOf(TurnChunks(Next(c, NewTurn).checkpoint, worlds)))
  {
    hide Completes, CallsSilently, EventsOf, TurnChunks, ToolsFirst;
    var start := Next(c, NewTurn).checkpoint;
    var ready := Opening(start);
    var waiting := After(After(ready, TALKING), TALKING);
    AsksAndWaits(ready);
    EndsHere(waiting);
    worlds := [];
    OneWorldMore(After(ready, TALKING), worlds);
    worlds := [TALKING] + worlds;
    OneWorldMore(ready, worlds);
    worlds := [TALKING] + worlds;
    assert !CallsSilently(ready, worlds);
    var states := OpeningStates(start);
    for k := 0 to 6
      invariant Completes(states[6 - k], worlds) && !CallsSilently(states[6 - k], worlds)
    {
      OneWorldMore(states[5 - k], worlds);
      worlds := [TALKING] + worlds;
    }
    ToolsFirstIff(c, worlds);
  }

  /** The checkpoints of a turn that is let in, from its start until the answer model is next. */
  function OpeningStates(start: Checkpoint): (states: seq<Checkpoint>)
    requires start.next == NormalizeInput && start.suspended.None?
    ensures |states| == 7 && states[0] == start && states[6] == Opening(start)
    ensures forall k :: 0 <= k < 6 ==>
              Runs(states[k], TALKING) && After(states[k], TALKING) == states[k + 1] && states[k].next != Generate
  {
    var screened := After(start, TALKING);
    var judged := After(screened, TALKING);
    var loaded := After(judged, TALKING);
    var recalled := After(loaded, TALKING);
    var planned := After(recalled, TALKING);
    [start, screened, judged, loaded, recalled, planned, After(planned, TALKING)]
  }

  function Opening(start: Checkpoint): Checkpoint {
    start.(next := Generate, injectionDetected := false, blockReason := "", activeDocument := None, rounds := [])
  }

  lemma AsksAndWaits(ready: Checkpoint)
    requires ready.next == Generate && ready.suspended.None? && ready.rounds == []
    ensures Runs(ready, TALKING) && After(ready, TALKING).next == Tools && Runs(After(ready, TALKING), TALKING)
    ensures After(After(ready, TALKING), TALKING).suspended.Some?
  {
    var asking := After(ready, TALKING);
    assert CallsOf(asking.requested) == [WebSearch("books")] && Answers([]) == [];
    assert Replay([WebSearch("books")], TALKING.seen, []) == Paused(0, []);
  }

  lemma EndsHere(state: Checkpoint)
    requires state.suspended.Some?
    ensures Completes(state, [])
  {
  }

  lemma OneWorldMore(state: Checkpoint, worlds: seq<World>)
    requires Runs(state, TALKING) && Completes(After(state, TALKING), worlds)
    ensures Completes(state, [TALKING] + worlds)
    ensures CallsSilently(state, [TALKING] + worlds) <==>
            state.next != Generate && CallsSilently(After(state, TALKING), worlds)
  {
    assert ([TALKING] + worlds)[1..] == worlds;
    assert TALKING.tokens[0] != "";
  }
}
