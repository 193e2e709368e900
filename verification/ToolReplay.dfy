/**
 The tools node under pause and replay. A call that interrupts suspends the node; resuming runs the node again from its
 start, and the n-th interrupt met is given the n-th answer. Calls run in order and pause one at a time.
 */
module ToolReplay {
  import opened Shared

  /** A requested tool call. Arguments appear as far as they decide pausing or what is searched. */
  datatype Call =
    | ReadOnly
    | Summarize(pagesGiven: bool)
    | WebSearch(text: string)
    | Recommend(includeWeb: bool, query: Option<string>)

  /** What the stores hold at the moment one call of one replay looks: any session may have changed them in between. */
  datatype Observation = Observation(documentFound: bool, positionTracked: bool, historyQuery: Option<string>)

  datatype Action = Approve | Edit | Deny | Unstated

  /** A resume value. An answer to another question states no action. */
  datatype Answer = Answer(action: Action, editedQuery: Option<string>, pageStart: Option<int>, pageEnd: Option<int>)

  /** What one replay did. `answer` is the index of the answer the call was given. */
  datatype Effect =
    | Ran(call: nat)
    | Searched(call: nat, answer: nat, query: string)
    | SearchDenied(call: nat, answer: nat)
    | PagesTaken(call: nat, answer: nat)

  /** How a replay ends: suspended at a call, or through. */
  datatype Outcome = Paused(call: nat, effects: seq<Effect>) | Finished(effects: seq<Effect>)

  // ------------------------------------------------------------- interrupts

  function ExplicitQuery(call: Call): bool
    requires call.Recommend?
  {
    call.query.Some? && call.query.value != ""
  }

  /** Whether a call interrupts, given what it finds. */
  predicate Interrupts(call: Call, seen: Observation) {
    match call
    case ReadOnly => false
    case Summarize(pagesGiven) => !pagesGiven && seen.documentFound && !seen.positionTracked
    case WebSearch(_) => true
    case Recommend(includeWeb, _) => includeWeb && (ExplicitQuery(call) || seen.historyQuery.Some?)
  }

  /** Reaches beyond stored data: by its declared flag, or by its own check. */
  predicate Gated(call: Call) {
    call.WebSearch? || (call.Recommend? && call.includeWeb)
  }

  /** Whether it interrupts depends on what the stores hold. */
  predicate DependsOnStores(call: Call) {
    (call.Summarize? && !call.pagesGiven) || (call.Recommend? && call.includeWeb && !ExplicitQuery(call))
  }

  predicate MayInterrupt(call: Call) {
    DependsOnStores(call) || Gated(call)
  }

  /** The query a search runs with once its answer is in. */
  function QueryFor(call: Call, seen: Observation, answer: Answer): string
    requires Gated(call) && Interrupts(call, seen)
  {
    var proposed :=
      if call.WebSearch? then call.text
      else if ExplicitQuery(call) then call.query.value
      else seen.historyQuery.value;
    if answer.action == Edit && answer.editedQuery.Some? then answer.editedQuery.value else proposed
  }

  /** What an answered call does: a gated one runs on anything but a denial. */
  function Answered(call: Call, c: nat, seen: Observation, answer: Answer, k: nat): Effect
    requires Interrupts(call, seen)
  {
    if !Gated(call) then PagesTaken(c, k)
    else if answer.action == Deny then SearchDenied(c, k)
    else Searched(c, k, QueryFor(call, seen, answer))
  }

  function Then(first: Effect, rest: Outcome): Outcome {
    rest.(effects := [first] + rest.effects)
  }

  /** One replay from call `c` on, with `k` interrupts met before it. */
  function ReplayFrom(calls: seq<Call>, seen: seq<Observation>, answers: seq<Answer>, c: nat, k: nat):
    (outcome: Outcome)
    requires |seen| == |calls| && c <= |calls|
    ensures outcome.Paused? ==> outcome.call < |calls|
    decreases |calls| - c
  {
    if c == |calls| then Finished([])
    else if !Interrupts(calls[c], seen[c]) then Then(Ran(c), ReplayFrom(calls, seen, answers, c + 1, k))
    else if k < |answers| then
      Then(Answered(calls[c], c, seen[c], answers[k], k), ReplayFrom(calls, seen, answers, c + 1, k + 1))
    else Paused(c, [])
  }

  function Replay(calls: seq<Call>, seen: seq<Observation>, answers: seq<Answer>): Outcome
    requires |seen| == |calls|
  {
    ReplayFrom(calls, seen, answers, 0, 0)
  }

  // ---------------------------------------------------------------- history

  /** One suspension: what the replay saw, and the answer the user then gave. */
  datatype Round = Round(seen: seq<Observation>, answer: Answer)

  function Answers(rounds: seq<Round>): (answers: seq<Answer>)
    ensures |answers| == |rounds|
    ensures forall i :: 0 <= i < |rounds| ==> answers[i] == rounds[i].answer
  {
    seq(|rounds|, i requires 0 <= i < |rounds| => rounds[i].answer)
  }

  /** The replay of round `i`, with the answers given before it. */
  function ReplayOf(calls: seq<Call>, rounds: seq<Round>, i: nat): Outcome
    requires i < |rounds| && |rounds[i].seen| == |calls|
  {
    Replay(calls, rounds[i].seen, Answers(rounds)[..i])
  }

  /** A history: every round really suspended. */
  predicate History(calls: seq<Call>, rounds: seq<Round>) {
    (forall i :: 0 <= i < |rounds| ==> |rounds[i].seen| == |calls|) &&
    forall i :: 0 <= i < |rounds| ==> ReplayOf(calls, rounds, i).Paused?
  }

  /** The call answer `i` was asked for. */
  function AskedBy(calls: seq<Call>, rounds: seq<Round>, i: nat): (call: nat)
    requires History(calls, rounds) && i < |rounds|
    ensures call < |calls|
  {
    ReplayOf(calls, rounds, i).call
  }

  /** Every search of this replay was asked about itself, and not denied. */
  ghost predicate SearchesOwnAnswers(calls: seq<Call>, rounds: seq<Round>, seen: seq<Observation>)
    requires History(calls, rounds) && |seen| == |calls|
  {
    forall c: nat, k: nat, query ::
      Searched(c, k, query) in Replay(calls, seen, Answers(rounds)).effects ==>
        k < |rounds| && AskedBy(calls, rounds, k) == c && rounds[k].answer.action != Deny
  }

  /** It holds whatever the stores did between the replays and whatever was answered. */
  ghost predicate ApprovalsAreTheirOwn(calls: seq<Call>) {
    forall rounds, seen :: History(calls, rounds) && |seen| == |calls| ==> SearchesOwnAnswers(calls, rounds, seen)
  }

  /**
   The condition on a batch of calls: no call whose pause depends on the stores comes before another call that may
   pause, if either of the two is gated.
   */
  predicate PausesStable(calls: seq<Call>) {
    forall i, j :: 0 <= i < j < |calls| && DependsOnStores(calls[i]) && MayInterrupt(calls[j]) ==>
      !Gated(calls[i]) && !Gated(calls[j])
  }

  // ------------------------------------------------------- counting interrupts

  /** The calls before `n` that interrupt, in order. */
  function Interrupting(calls: seq<Call>, seen: seq<Observation>, n: nat): (list: seq<nat>)
    requires |seen| == |calls| && n <= |calls|
    ensures |list| <= n
    ensures forall k :: 0 <= k < |list| ==> list[k] < n && Interrupts(calls[list[k]], seen[list[k]])
  {
    if n == 0 then []
    else
      var before := Interrupting(calls, seen, n - 1);
      if Interrupts(calls[n - 1], seen[n - 1]) then before + [n - 1] else before
  }

  /** An interrupting call stands at the index that counts the ones before it. */
  lemma {:induction false} IndexIsCount(calls: seq<Call>, seen: seq<Observation>, n: nat, k: nat)
    requires |seen| == |calls| && n <= |calls| && k < |Interrupting(calls, seen, n)|
    ensures |Interrupting(calls, seen, Interrupting(calls, seen, n)[k])| == k
  {
    var before := Interrupting(calls, seen, n - 1);
    if k < |before| {
      IndexIsCount(calls, seen, n - 1, k);
    }
  }

  lemma {:induction false} CountGrows(calls: seq<Call>, seen: seq<Observation>, m: nat, n: nat)
    requires |seen| == |calls| && m <= n <= |calls|
    ensures |Interrupting(calls, seen, m)| <= |Interrupting(calls, seen, n)|
    ensures m < n && Interrupts(calls[m], seen[m]) ==>
              |Interrupting(calls, seen, m)| < |Interrupting(calls, seen, n)| &&
              Interrupting(calls, seen, n)[|Interrupting(calls, seen, m)|] == m
  {
    if m < n {
      CountGrows(calls, seen, m, n - 1);
    }
  }

  /** Calls that all interrupt alike are counted alike. */
  lemma {:induction false} SameCount(calls: seq<Call>, a: seq<Observation>, b: seq<Observation>, n: nat)
    requires |a| == |b| == |calls| && n <= |calls|
    requires forall i :: 0 <= i < n ==> Interrupts(calls[i], a[i]) == Interrupts(calls[i], b[i])
    ensures Interrupting(calls, a, n) == Interrupting(calls, b, n)
  {
    if n > 0 {
      SameCount(calls, a, b, n - 1);
    }
  }

  /** What a replay does is decided by matching its interrupts with the answers, in order. */
  lemma {:induction false} ReplayMatches(calls: seq<Call>, seen: seq<Observation>, answers: seq<Answer>, c: nat)
    requires |seen| == |calls| && c <= |calls| && |Interrupting(calls, seen, c)| <= |answers|
    ensures var k := |Interrupting(calls, seen, c)|;
            var list, outcome := Interrupting(calls, seen, |calls|), ReplayFrom(calls, seen, answers, c, k);
            (outcome.Paused? <==> |answers| < |list|) &&
            (outcome.Paused? ==> outcome.call == list[|answers|]) &&
            (forall x: nat, m: nat, query :: Searched(x, m, query) in outcome.effects ==>
              m < |list| && m < |answers| && list[m] == x && Gated(calls[x]) && answers[m].action != Deny) &&
            (forall m: nat :: k <= m < |list| && m < |answers| && Gated(calls[list[m]]) && answers[m].action != Deny ==>
              exists query :: Searched(list[m], m, query) in outcome.effects)
    decreases |calls| - c
  {
    var k := |Interrupting(calls, seen, c)|;
    var list, outcome := Interrupting(calls, seen, |calls|), ReplayFrom(calls, seen, answers, c, k);
    CountGrows(calls, seen, c, |calls|);
    if c < |calls| {
      if !Interrupts(calls[c], seen[c]) {
        ReplayMatches(calls, seen, answers, c + 1);
        EffectsAfter(Ran(c), ReplayFrom(calls, seen, answers, c + 1, k));
      } else if k < |answers| {
        ReplayMatches(calls, seen, answers, c + 1);
        EffectsAfter(Answered(calls[c], c, seen[c], answers[k], k), ReplayFrom(calls, seen, answers, c + 1, k + 1));
      }
    }
  }

  lemma EffectsAfter(first: Effect, rest: Outcome)
    ensures forall e :: e in Then(first, rest).effects <==> e == first || e in rest.effects
  {
    assert Then(first, rest).effects[0] == first;
    assert forall i :: 0 <= i < |rest.effects| ==> Then(first, rest).effects[i + 1] == rest.effects[i];
  }

  // -------------------------------------------------------- what a replay does

  /**
   Which calls pause: a web search always; a recommendation that includes the web, unless it has neither a query nor a
   reading history to make one from; a recap without pages, of a document that is there and has no position.
   */
  predicate Pausing(call: Call, seen: Observation) {
    match call
    case ReadOnly => false
    case WebSearch(_) => true
    case Recommend(includeWeb, query) =>
      includeWeb && (!(query == None || query == Some("")) || seen.historyQuery != None)
    case Summarize(pagesGiven) => !(pagesGiven || !seen.documentFound || seen.positionTracked)
  }

  /** The query that goes out: the reader's edit if there is one, else the call's own, else the one history suggests. */
  predicate QueryIs(call: Call, seen: Observation, answer: Answer, query: string) {
    if answer.action == Edit && answer.editedQuery.Some? then answer.editedQuery == Some(query)
    else if call.WebSearch? then query == call.text
    else if call.Recommend? && call.query != None && call.query != Some("") then call.query == Some(query)
    else call.Recommend? && seen.historyQuery == Some(query)
  }

  /** How many calls before `c` pause. */
  function PausingBefore(calls: seq<Call>, seen: seq<Observation>, c: nat): set<nat>
    requires |seen| == |calls| && c <= |calls|
  {
    set j | 0 <= j < c && Pausing(calls[j], seen[j])
  }

  /** The effect is what call `c` amounts to, with the answer whose number is that of the pauses before it. */
  predicate EffectIs(calls: seq<Call>, seen: seq<Observation>, answers: seq<Answer>, c: nat, effect: Effect)
    requires |seen| == |calls| && c < |calls|
  {
    var call, m := calls[c], |PausingBefore(calls, seen, c)|;
    if !Pausing(call, seen[c]) then effect == Ran(c)
    else
      m < |answers| &&
      if call.Summarize? then effect == PagesTaken(c, m)
      else if answers[m].action == Deny then effect == SearchDenied(c, m)
      else
        effect.Searched? && effect.call == c && effect.answer == m &&
        QueryIs(call, seen[c], answers[m], effect.query)
  }

  lemma PausingIsInterrupting(call: Call, seen: Observation)
    ensures Pausing(call, seen) <==> Interrupts(call, seen)
  {
  }

  lemma AnsweredIs(calls: seq<Call>, seen: seq<Observation>, answers: seq<Answer>, c: nat)
    requires |seen| == |calls| && c < |calls| && |PausingBefore(calls, seen, c)| < |answers|
    requires Interrupts(calls[c], seen[c])
    ensures var m := |PausingBefore(calls, seen, c)|;
            EffectIs(calls, seen, answers, c, Answered(calls[c], c, seen[c], answers[m], m))
  {
    hide PausingBefore;
    PausingIsInterrupting(calls[c], seen[c]);
    AnsweredQuery(calls[c], seen[c], answers[|PausingBefore(calls, seen, c)|]);
    hide QueryFor, QueryIs, Pausing;
  }

  lemma AnsweredQuery(call: Call, seen: Observation, answer: Answer)
    requires Interrupts(call, seen)
    ensures call.Summarize? || Gated(call)
    ensures Gated(call) ==> !call.Summarize? && QueryIs(call, seen, answer, QueryFor(call, seen, answer))
  {
  }

  /** One effect for each call up to the end or the pause, in order, each what its call, view and answer amount to. */
  lemma {:induction false} EffectsAre(calls: seq<Call>, seen: seq<Observation>, answers: seq<Answer>, c: nat)
    requires |seen| == |calls| && c <= |calls| && |PausingBefore(calls, seen, c)| <= |answers|
    ensures var outcome := ReplayFrom(calls, seen, answers, c, |PausingBefore(calls, seen, c)|);
            (if outcome.Paused?
             then c <= outcome.call < |calls| && |outcome.effects| == outcome.call - c &&
                  Pausing(calls[outcome.call], seen[outcome.call]) &&
                  |PausingBefore(calls, seen, outcome.call)| == |answers|
             else |outcome.effects| == |calls| - c) &&
            forall i :: 0 <= i < |outcome.effects| ==> EffectIs(calls, seen, answers, c + i, outcome.effects[i])
    decreases |calls| - c
  {
    hide EffectIs, PausingBefore, Answered;
    var k := |PausingBefore(calls, seen, c)|;
    if c < |calls| {
      OneMorePausing(calls, seen, c);
      PausingIsInterrupting(calls[c], seen[c]);
      var first := if Interrupts(calls[c], seen[c]) && k < |answers| then Answered(calls[c], c, seen[c], answers[k], k)
                   else Ran(c);
      if !Interrupts(calls[c], seen[c]) || k < |answers| {
        EffectsAre(calls, seen, answers, c + 1);
        FirstEffect(calls, seen, answers, c);
        var rest := ReplayFrom(calls, seen, answers, c + 1, |PausingBefore(calls, seen, c + 1)|);
        assert ReplayFrom(calls, seen, answers, c, k) == Then(first, rest);
        assert forall i :: 1 <= i <= |rest.effects| ==> Then(first, rest).effects[i] == rest.effects[i - 1];
      }
    }
  }

  lemma FirstEffect(calls: seq<Call>, seen: seq<Observation>, answers: seq<Answer>, c: nat)
    requires |seen| == |calls| && c < |calls|
    ensures var k := |PausingBefore(calls, seen, c)|;
            if !Interrupts(calls[c], seen[c]) then EffectIs(calls, seen, answers, c, Ran(c))
            else k < |answers| ==> EffectIs(calls, seen, answers, c, Answered(calls[c], c, seen[c], answers[k], k))
  {
    PausingIsInterrupting(calls[c], seen[c]);
    hide Pausing, Interrupts;
    if Interrupts(calls[c], seen[c]) && |PausingBefore(calls, seen, c)| < |answers| {
      AnsweredIs(calls, seen, answers, c);
    }
  }

  lemma OneMorePausing(calls: seq<Call>, seen: seq<Observation>, c: nat)
    requires |seen| == |calls| && c < |calls|
    ensures |PausingBefore(calls, seen, c + 1)| ==
            |PausingBefore(calls, seen, c)| + if Interrupts(calls[c], seen[c]) then 1 else 0
  {
    PausingIsInterrupting(calls[c], seen[c]);
    assert PausingBefore(calls, seen, c + 1) ==
           PausingBefore(calls, seen, c) + if Interrupts(calls[c], seen[c]) then {c} else {};
  }

  /** A replay from the start: so what it searches, it searches with the query its own call and answer say. */
  lemma ReplayIs(calls: seq<Call>, seen: seq<Observation>, answers: seq<Answer>)
    requires |seen| == |calls|
    ensures var outcome := Replay(calls, seen, answers);
            |outcome.effects| == (if outcome.Paused? then outcome.call else |calls|) &&
            (outcome.Paused? <==> |answers| < |PausingBefore(calls, seen, |calls|)|) &&
            (outcome.Paused? ==>
              Pausing(calls[outcome.call], seen[outcome.call]) &&
              |PausingBefore(calls, seen, outcome.call)| == |answers|) &&
            (forall c :: 0 <= c < |outcome.effects| ==> EffectIs(calls, seen, answers, c, outcome.effects[c])) &&
            forall x: nat, m: nat, query :: Searched(x, m, query) in outcome.effects ==>
              x < |calls| && m < |answers| && QueryIs(calls[x], seen[x], answers[m], query)
  {
    assert PausingBefore(calls, seen, 0) == {};
    EffectsAre(calls, seen, answers, 0);
    ReplayMatches(calls, seen, answers, 0);
    CountIsSet(calls, seen, |calls|);
    var outcome := Replay(calls, seen, answers);
    hide PausingBefore, QueryIs, ReplayFrom, Pausing, Replay;
    forall x: nat, m: nat, query | Searched(x, m, query) in outcome.effects
      ensures x < |calls| && m < |answers| && QueryIs(calls[x], seen[x], answers[m], query)
    {
      var c :| 0 <= c < |outcome.effects| && outcome.effects[c] == Searched(x, m, query);
      assert EffectIs(calls, seen, answers, c, outcome.effects[c]);
    }
  }

  lemma {:induction false} CountIsSet(calls: seq<Call>, seen: seq<Observation>, n: nat)
    requires |seen| == |calls| && n <= |calls|
    ensures |Interrupting(calls, seen, n)| == |PausingBefore(calls, seen, n)|
  {
    if n == 0 {
      assert PausingBefore(calls, seen, 0) == {};
    } else {
      CountIsSet(calls, seen, n - 1);
      OneMorePausing(calls, seen, n - 1);
    }
  }
}
