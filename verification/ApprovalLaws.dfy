/** When an approval given to one tool call is sure to be used for that call: exactly for batches with stable pauses. */
module ApprovalLaws {
  import opened Shared
  import opened ToolReplay

  // ----------------------------------------------------- stable pauses suffice

  /** Before a gated call of a stable batch nothing depends on the stores, so its index never moves. */
  lemma GatedIndexFixed(calls: seq<Call>, a: seq<Observation>, b: seq<Observation>, x: nat)
    requires PausesStable(calls) && |a| == |b| == |calls| && x < |calls| && Gated(calls[x])
    ensures Interrupting(calls, a, x) == Interrupting(calls, b, x)
  {
    forall i | 0 <= i < x
      ensures Interrupts(calls[i], a[i]) == Interrupts(calls[i], b[i])
    {
      assert MayInterrupt(calls[x]);
      assert !DependsOnStores(calls[i]);
    }
    SameCount(calls, a, b, x);
  }

  /** In a stable batch, whatever stands at a gated call's index is that call. */
  lemma IndexBelongsToCall(calls: seq<Call>, a: seq<Observation>, b: seq<Observation>, x: nat, y: nat)
    requires PausesStable(calls) && |a| == |b| == |calls| && x < |calls| && y < |calls| && Gated(calls[x])
    requires Interrupts(calls[x], a[x]) && Interrupts(calls[y], b[y])
    requires |Interrupting(calls, a, x)| == |Interrupting(calls, b, y)|
    ensures x == y
  {
    GatedIndexFixed(calls, a, b, x);
    if y < x {
      CountGrows(calls, b, y, x);
    } else if x < y {
      CountGrows(calls, b, x, y);
      assert !Interrupts(calls[x], b[x]);
      assert DependsOnStores(calls[x]) && MayInterrupt(calls[y]);
    }
  }

  /** The call a round suspended at is the one that stands at the round's index. */
  lemma AskedAtIndex(calls: seq<Call>, rounds: seq<Round>, i: nat)
    requires History(calls, rounds) && i < |rounds|
    ensures var list := Interrupting(calls, rounds[i].seen, |calls|);
            i < |list| && AskedBy(calls, rounds, i) == list[i] && list[i] < |calls| &&
            Interrupts(calls[list[i]], rounds[i].seen[list[i]]) &&
            |Interrupting(calls, rounds[i].seen, list[i])| == i
  {
    var seen := rounds[i].seen;
    assert ReplayOf(calls, rounds, i).Paused?;
    ReplayMatches(calls, seen, Answers(rounds)[..i], 0);
    IndexIsCount(calls, seen, |calls|, i);
  }

  lemma StableSuffices(calls: seq<Call>, rounds: seq<Round>, seen: seq<Observation>)
    requires PausesStable(calls) && History(calls, rounds) && |seen| == |calls|
    ensures SearchesOwnAnswers(calls, rounds, seen)
  {
    ReplayMatches(calls, seen, Answers(rounds), 0);
    var list := Interrupting(calls, seen, |calls|);
    forall c: nat, k: nat, query | Searched(c, k, query) in Replay(calls, seen, Answers(rounds)).effects
      ensures k < |rounds| && AskedBy(calls, rounds, k) == c && rounds[k].answer.action != Deny
    {
      IndexIsCount(calls, seen, |calls|, k);
      AskedAtIndex(calls, rounds, k);
      IndexBelongsToCall(calls, seen, rounds[k].seen, c, AskedBy(calls, rounds, k));
    }
  }

  /** In a stable batch a denial is final: the call it was given to does not search in any later replay. */
  lemma DenialIsFinal(calls: seq<Call>, rounds: seq<Round>, k: nat, seen: seq<Observation>)
    requires PausesStable(calls) && History(calls, rounds) && |seen| == |calls|
    requires k < |rounds| && rounds[k].answer.action == Deny && Gated(calls[AskedBy(calls, rounds, k)])
    ensures forall m: nat, query ::
              Searched(AskedBy(calls, rounds, k), m, query) !in Replay(calls, seen, Answers(rounds)).effects
  {
    var c := AskedBy(calls, rounds, k);
    ReplayMatches(calls, seen, Answers(rounds), 0);
    var list := Interrupting(calls, seen, |calls|);
    AskedAtIndex(calls, rounds, k);
    forall m: nat, query
      ensures Searched(c, m, query) !in Replay(calls, seen, Answers(rounds)).effects
    {
      if Searched(c, m, query) in Replay(calls, seen, Answers(rounds)).effects {
        IndexIsCount(calls, seen, |calls|, m);
        GatedIndexFixed(calls, seen, rounds[k].seen, c);
      }
    }
  }

  // ------------------------------------------------- unstable pauses break it

  const QUIET := Observation(true, true, None)
  const LOUD := Observation(true, false, Some("more like this"))

  /** Every call that depends on the stores stays quiet, except `x`. */
  function OnlyLoud(calls: seq<Call>, x: nat): (seen: seq<Observation>)
    ensures |seen| == |calls|
    ensures forall i :: 0 <= i < |calls| ==>
              (Interrupts(calls[i], seen[i]) <==> MayInterrupt(calls[i]) && (DependsOnStores(calls[i]) ==> i == x))
  {
    seq(|calls|, i requires 0 <= i < |calls| => if i == x then LOUD else QUIET)
  }

  const APPROVED := Answer(Approve, None, None, None)

  function Approvals(seen: seq<Observation>, n: nat): (rounds: seq<Round>)
    ensures |rounds| == n
    ensures forall i :: 0 <= i < n ==> rounds[i] == Round(seen, APPROVED)
  {
    seq(n, i => Round(seen, APPROVED))
  }

  /** A user who approves every question of the same view of the stores. */
  lemma ApprovalsAreHistory(calls: seq<Call>, seen: seq<Observation>, n: nat)
    requires |seen| == |calls| && n <= |Interrupting(calls, seen, |calls|)|
    ensures History(calls, Approvals(seen, n))
  {
    var rounds := Approvals(seen, n);
    forall i | 0 <= i < |rounds|
      ensures ReplayOf(calls, rounds, i).Paused?
    {
      ReplayMatches(calls, seen, Answers(rounds)[..i], 0);
    }
  }

  /** If `x` is asked at an index where, once the stores have moved, `y` stands, then `y` searches on `x`'s answer. */
  lemma AnswerMovesOver(calls: seq<Call>, before: seq<Observation>, after: seq<Observation>, x: nat, y: nat)
    requires |before| == |after| == |calls| && x < |calls| && y < |calls| && x != y && Gated(calls[y])
    requires Interrupts(calls[x], before[x]) && Interrupts(calls[y], after[y])
    requires |Interrupting(calls, before, x)| == |Interrupting(calls, after, y)|
    ensures !ApprovalsAreTheirOwn(calls)
  {
    var p := |Interrupting(calls, before, x)|;
    CountGrows(calls, before, x, |calls|);
    CountGrows(calls, after, y, |calls|);
    var rounds := Approvals(before, p + 1);
    ApprovalsAreHistory(calls, before, p + 1);
    AskedAtIndex(calls, rounds, p);
    assert AskedBy(calls, rounds, p) == x;
    ReplayMatches(calls, after, Answers(rounds), 0);
    var query :| Searched(y, p, query) in Replay(calls, after, Answers(rounds)).effects;
    assert !SearchesOwnAnswers(calls, rounds, after);
  }

  /** From an offending pair, one with nothing that pauses in between. */
  lemma NearestPair(calls: seq<Call>) returns (i: nat, j: nat)
    requires !PausesStable(calls)
    ensures i < j < |calls| && DependsOnStores(calls[i]) && MayInterrupt(calls[j])
    ensures Gated(calls[i]) || Gated(calls[j])
    ensures forall k :: i < k < j && MayInterrupt(calls[k]) ==> !Gated(calls[i]) && !Gated(calls[k])
  {
    var far: nat;
    i, far :| 0 <= i < far < |calls| && DependsOnStores(calls[i]) && MayInterrupt(calls[far]) &&
              (Gated(calls[i]) || Gated(calls[far]));
    j := i + 1;
    while !(MayInterrupt(calls[j]) && (Gated(calls[i]) || Gated(calls[j])))
      invariant i < j <= far
      invariant forall k :: i < k < j && MayInterrupt(calls[k]) ==> !Gated(calls[i]) && !Gated(calls[k])
      decreases far - j
    {
      j := j + 1;
    }
  }

  lemma {:induction false} QuietBetween(calls: seq<Call>, seen: seq<Observation>, m: nat, n: nat)
    requires |seen| == |calls| && m <= n <= |calls|
    requires forall k :: m <= k < n ==> !Interrupts(calls[k], seen[k])
    ensures Interrupting(calls, seen, n) == Interrupting(calls, seen, m)
  {
    if m < n {
      QuietBetween(calls, seen, m, n - 1);
    }
  }

  lemma UnstableBreaks(calls: seq<Call>)
    requires !PausesStable(calls)
    ensures !ApprovalsAreTheirOwn(calls)
  {
    var i, j := NearestPair(calls);
    var first, second := OnlyLoud(calls, i), OnlyLoud(calls, j);
    SameCount(calls, first, second, i);
    QuietBetween(calls, second, i, j);
    if Gated(calls[j]) {
      // First `i` pauses; later it does not, and `j` stands at its index.
      AnswerMovesOver(calls, first, second, i, j);
    } else {
      // First `j` pauses and `i` does not; later `i` does, at the index `j` had.
      AnswerMovesOver(calls, second, first, j, i);
    }
  }

  /** An approval is sure to be used for the call it was given to exactly when the batch has stable pauses. */
  lemma ApprovalsTheirOwnIffStable(calls: seq<Call>)
    ensures ApprovalsAreTheirOwn(calls) <==> PausesStable(calls)
  {
    if PausesStable(calls) {
      forall rounds, seen | History(calls, rounds) && |seen| == |calls|
        ensures SearchesOwnAnswers(calls, rounds, seen)
      {
        StableSuffices(calls, rounds, seen);
      }
    } else {
      UnstableBreaks(calls);
    }
  }

  const PAGES := Answer(Unstated, None, Some(1), Some(40))
  const DENIED := Answer(Deny, None, None, None)

  /**
   A recap that asks for pages, then a web search. The first resume records the position, so the last replay does not
   ask for pages again; the search takes the first answer, which states no action, and runs although it was denied.
   */
  lemma DeniedSearchRuns(query: string)
    ensures var calls := [Summarize(false), WebSearch(query)];
            var asked := [Observation(true, false, None), QUIET];
            var recorded := [Observation(true, true, None), QUIET];
            var rounds := [Round(asked, PAGES), Round(asked, DENIED)];
            History(calls, rounds) && AskedBy(calls, rounds, 1) == 1 &&
            Searched(1, 0, query) in Replay(calls, recorded, Answers(rounds)).effects
  {
    var calls := [Summarize(false), WebSearch(query)];
    var asked := [Observation(true, false, None), QUIET];
    var recorded := [Observation(true, true, None), QUIET];
    var rounds := [Round(asked, PAGES), Round(asked, DENIED)];
    assert Interrupting(calls, asked, 2) == [0, 1] && Interrupting(calls, recorded, 2) == [1];
    forall i | 0 <= i < |rounds|
      ensures ReplayOf(calls, rounds, i).Paused? && ReplayOf(calls, rounds, i).call == i
    {
      ReplayMatches(calls, asked, Answers(rounds)[..i], 0);
    }
    assert Replay(calls, recorded, Answers(rounds)) ==
           Then(Ran(0), ReplayFrom(calls, recorded, Answers(rounds), 1, 0));
    assert ReplayFrom(calls, recorded, Answers(rounds), 1, 0) ==
           Then(Searched(1, 0, query), ReplayFrom(calls, recorded, Answers(rounds), 2, 1));
    EffectsAfter(Searched(1, 0, query), ReplayFrom(calls, recorded, Answers(rounds), 2, 1));
    EffectsAfter(Ran(0), ReplayFrom(calls, recorded, Answers(rounds), 1, 0));
  }
}
