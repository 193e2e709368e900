/**
 One conversation with the reading assistant: a fixed graph of nodes over checkpointed state. A node may suspend on an
 interrupt; a resume runs it again from its start with the answers given so far.
 */
module AgentGraph {
  import opened Shared
  import opened ToolReplay

  datatype Node =
    | NormalizeInput | GuardrailIn | LoadProgress | LoadMemories | PlanTurn | ExtractMemory
    | Generate | Tools | PersistMemory | GuardrailOut | Compact | End

  /** A call the answer model requested, with the document it names, if any. */
  datatype ToolCall = ToolCall(id: string, call: Call, document: Option<nat>)

  /** The reader's row for the active document. */
  datatype Position = Position(currentPage: int, lastSummarized: int, spoilerSafe: Option<bool>)

  /** What one execution of a node meets: judges, the model, and what the stores hold just then. */
  datatype World = World(
    injection: bool,
    onTopic: bool, safe: bool, reason: string,
    text: string, requested: seq<ToolCall>, tokens: seq<string>,
    seen: seq<Observation>,
    position: Option<Position>, userSpoilerSafe: bool, chunksFound: bool,
    spoilerRisk: bool)

  datatype Kind = ToolQuestion | PageRangeConfirm | SpoilerWarning

  /** The state the checkpointer keeps. `rounds` holds the interrupts already answered for the node that runs next. */
  datatype Checkpoint = Checkpoint(
    next: Node,
    injectionDetected: bool,
    blockReason: string,
    requested: seq<ToolCall>,
    text: string,
    activeDocument: Option<nat>,
    saveAck: string,
    answer: string,
    rounds: seq<Round>,
    suspended: Option<seq<Observation>>)

  const START := Checkpoint(End, false, "", [], "", None, "", "", [], None)

  /** What happened, in order. */
  datatype Entry =
    | TurnBegan
    | Entered(node: Node)
    | Blocked(reason: string)
    | Tool(calls: seq<ToolCall>, effect: Effect)
    | SummarySaved(document: nat, pageStart: int, pageEnd: int)
    | Asked(kind: Kind)
    | Resumed(answer: Answer)
    | Replied(revealed: bool, risky: bool, text: string)
    | NodeFailed

  datatype Conversation = Conversation(checkpoint: Checkpoint, journal: seq<Entry>)

  datatype Input = NewTurn | Execute(world: World) | Resume(answer: Answer)

  // ------------------------------------------------------------------ helpers

  /** The first document any of the calls names. */
  function DocumentNamed(calls: seq<ToolCall>): Option<nat> {
    if calls == [] then None
    else if calls[0].document.Some? then calls[0].document
    else DocumentNamed(calls[1..])
  }

  function CallsOf(requested: seq<ToolCall>): (calls: seq<Call>)
    ensures |calls| == |requested|
  {
    seq(|requested|, i requires 0 <= i < |requested| => requested[i].call)
  }

  /** The canned refusals, by key; every language has one for each. */
  function CannedRefusal(injection: bool): (copy: string)
    ensures copy != ""
  {
    if injection then "injection" else "off_topic"
  }

  function WithSaveAck(answer: string, saveAck: string): string {
    if saveAck == "" then answer else answer + "\n\n" + saveAck
  }

  const WITHHELD := "held back: it goes beyond the page you have reached"
  const SAVED := "saved a summary"

  // -------------------------------------------------------------------- nodes

  /** The result of running a node: the state it leaves, and what it did. */
  datatype NodeRun = NodeRun(checkpoint: Checkpoint, entries: seq<Entry>)

  /** Finish the node and go on; its answered interrupts are forgotten. */
  function Go(state: Checkpoint, next: Node, entries: seq<Entry>): NodeRun {
    NodeRun(state.(next := next, rounds := [], suspended := None), entries)
  }

  /** Suspend the node: nothing it did to the state is kept, only that it waits. */
  function Suspend(state: Checkpoint, kind: Kind, seen: seq<Observation>, entries: seq<Entry>): NodeRun {
    NodeRun(state.(suspended := Some(seen)), entries + [Asked(kind)])
  }

  /** An injection flag blocks without asking the judge; a rejection always carries a reason. */
  function RunGuardrailIn(state: Checkpoint, world: World): NodeRun {
    var reason :=
      if state.injectionDetected then CannedRefusal(true)
      else if world.onTopic && world.safe then ""
      else if world.reason != "" then world.reason
      else CannedRefusal(false);
    if reason != "" then Go(state.(blockReason := reason), End, [Blocked(reason)])
    else Go(state.(blockReason := ""), LoadProgress, [])
  }

  function ToolEntries(requested: seq<ToolCall>, effects: seq<Effect>): (entries: seq<Entry>)
    ensures |entries| == |effects|
    ensures forall i :: 0 <= i < |effects| ==> entries[i] == Tool(requested, effects[i])
  {
    seq(|effects|, i requires 0 <= i < |effects| => Tool(requested, effects[i]))
  }

  function RunTools(state: Checkpoint, world: World): NodeRun
    requires |world.seen| == |state.requested|
  {
    var outcome := Replay(CallsOf(state.requested), world.seen, Answers(state.rounds));
    var entries := ToolEntries(state.requested, outcome.effects);
    match outcome
    case Paused(_, _) => Suspend(state, ToolQuestion, world.seen, entries)
    case Finished(_) => Go(state.(activeDocument := DocumentNamed(state.requested)), Generate, entries)
  }

  /** The proposal is everything read since the last summary; an answer may change either end. */
  function SummaryRange(position: Position, answer: Answer): (int, int) {
    (if answer.pageStart.Some? then answer.pageStart.value else position.lastSummarized + 1,
     if answer.pageEnd.Some? then answer.pageEnd.value else position.currentPage)
  }

  /** Confirm and save a summary of the pages read since the last one. */
  function RunPersistMemory(state: Checkpoint, world: World): NodeRun {
    if state.activeDocument.None? || world.position.None? ||
       world.position.value.currentPage <= world.position.value.lastSummarized
    then Go(state, GuardrailOut, [])
    else if state.rounds == [] then Suspend(state, PageRangeConfirm, [], [])
    else
      var answer := state.rounds[0].answer;
      var (pageStart, pageEnd) := SummaryRange(world.position.value, answer);
      if answer.action == Deny || !world.chunksFound then Go(state, GuardrailOut, [])
      else if pageStart < 1 || pageEnd < pageStart then NodeRun(state, [NodeFailed])
      else
        Go(state.(saveAck := SAVED), GuardrailOut, [SummarySaved(state.activeDocument.value, pageStart, pageEnd)])
  }

  /** Sanitize, and when the turn named a document and spoiler-safe is on, have the answer judged. */
  function RunGuardrailOut(state: Checkpoint, world: World): NodeRun {
    var shown := WithSaveAck(state.text, state.saveAck);
    var withheld := WithSaveAck(WITHHELD, state.saveAck);
    if state.activeDocument.None? || world.position.None? ||
       !ResolveSpoilerSafe(None, world.position.value.spoilerSafe, world.userSpoilerSafe) || !world.spoilerRisk
    then Go(state.(answer := shown), Compact, [Replied(true, false, shown)])
    else if state.rounds == [] then Suspend(state, SpoilerWarning, [], [])
    else if state.rounds[0].answer.action == Approve
    then Go(state.(answer := shown), Compact, [Replied(true, true, shown)])
    else Go(state.(answer := withheld), Compact, [Replied(false, true, withheld)])
  }

  /** One execution of the next node, fresh or replayed. */
  function RunNode(state: Checkpoint, world: World): NodeRun
    requires state.next != End
    requires state.next == Tools ==> |world.seen| == |state.requested|
  {
    match state.next
    case NormalizeInput =>
      Go(state.(injectionDetected := world.injection, activeDocument := None), GuardrailIn, [])
    case GuardrailIn => RunGuardrailIn(state, world)
    case LoadProgress => Go(state, LoadMemories, [])
    case LoadMemories => Go(state, PlanTurn, [])
    case PlanTurn => Go(state, ExtractMemory, [])
    case ExtractMemory => Go(state, Generate, [])
    case Generate =>
      var next := if world.requested != [] then Tools else PersistMemory;
      Go(state.(requested := world.requested, text := world.text), next, [])
    case Tools => RunTools(state, world)
    case PersistMemory => RunPersistMemory(state, world)
    case GuardrailOut => RunGuardrailOut(state, world)
    case Compact => Go(state, End, [])
  }

  // ---------------------------------------------------------------- the runs

  predicate Accepts(c: Conversation, input: Input) {
    match input
    case NewTurn => true
    case Execute(world) =>
      c.checkpoint.next != End && c.checkpoint.suspended.None? &&
      (c.checkpoint.next == Tools ==> |world.seen| == |c.checkpoint.requested|)
    case Resume(_) => c.checkpoint.suspended.Some?
  }

  /** One input. A new turn keeps the checkpoint: only what the nodes reset is reset. */
  function Next(c: Conversation, input: Input): Conversation
    requires Accepts(c, input)
  {
    match input
    case NewTurn =>
      Conversation(c.checkpoint.(next := NormalizeInput, rounds := [], suspended := None), c.journal + [TurnBegan])
    case Execute(world) =>
      var run := RunNode(c.checkpoint, world);
      Conversation(run.checkpoint, c.journal + [Entered(c.checkpoint.next)] + run.entries)
    case Resume(answer) =>
      var rounds := c.checkpoint.rounds + [Round(c.checkpoint.suspended.value, answer)];
      Conversation(c.checkpoint.(rounds := rounds, suspended := None), c.journal + [Resumed(answer)])
  }

  predicate Valid(c: Conversation, inputs: seq<Input>)
    decreases |inputs|
  {
    inputs == [] || (Accepts(c, inputs[0]) && Valid(Next(c, inputs[0]), inputs[1..]))
  }

  function Run(c: Conversation, inputs: seq<Input>): Conversation
    requires Valid(c, inputs)
    decreases |inputs|
  {
    if inputs == [] then c else Run(Next(c, inputs[0]), inputs[1..])
  }
}
