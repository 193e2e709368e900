/** Laws of the reading ledger over every run: what the trail conserves, and when the summaries tile the book. */
module ReadingLaws {
  import opened AgentGraph
  import opened Reading
  import opened Shared
  import opened ToolReplay

  // ---------------------------------------------------------- position trail

  predicate Advance(event: ReadingEvent) {
    event.kind == PositionAdvanced && event.fromPage.Some? && event.toPage.Some? &&
    event.fromPage.value < event.toPage.value
  }

  function GainOf(event: ReadingEvent): nat {
    if Advance(event) then event.toPage.value - event.fromPage.value else 0
  }

  /** All forward movement in a trail. */
  function Gained(trail: seq<ReadingEvent>): nat {
    if trail == [] then 0 else Gained(trail[..|trail| - 1]) + GainOf(trail[|trail| - 1])
  }

  /** Page `p` was read by some advance. */
  predicate Covered(trail: seq<ReadingEvent>, p: int) {
    exists i :: 0 <= i < |trail| && Advance(trail[i]) && trail[i].fromPage.value < p <= trail[i].toPage.value
  }

  /** Where the last advance went. */
  function LastReached(trail: seq<ReadingEvent>): int {
    if trail == [] then 0
    else if Advance(trail[|trail| - 1]) then trail[|trail| - 1].toPage.value
    else LastReached(trail[..|trail| - 1])
  }

  function Page(steps: seq<Step>): int {
    RowOf(After(steps)).currentPage
  }

  /** The highest page a run ever was on. */
  function Highest(steps: seq<Step>): int {
    if steps == [] then 0 else Max(Highest(steps[..|steps| - 1]), Page(steps))
  }

  /** How far a run moved back in all. */
  function Backward(steps: seq<Step>): nat {
    if steps == [] then 0
    else
      var front := steps[..|steps| - 1];
      Backward(front) + Max(0, Page(front) - Page(steps))
  }

  /** What a step adds to the trail. */
  function Added(before: Ledger, step: Step): seq<ReadingEvent> {
    if step.Update? && Acceptable(step.request, before.pageCount)
    then Emitted(RowOf(before), NewRow(RowOf(before), step.request, before.pageCount), step.request.day)
    else []
  }

  lemma StepAdds(before: Ledger, step: Step)
    ensures Apply(before, step).trail == before.trail + Added(before, step)
  {
  }

  lemma {:induction false} GainGrows(trail: seq<ReadingEvent>, more: seq<ReadingEvent>)
    ensures Gained(trail + more) == Gained(trail) + Gained(more)
  {
    hide GainOf;
    var all, n := trail + more, |more| - 1;
    if more == [] {
      assert all == trail;
    } else {
      GainGrows(trail, more[..n]);
      assert all[..|all| - 1] == trail + more[..n];
    }
  }

  lemma {:induction false} ReachGrows(trail: seq<ReadingEvent>, more: seq<ReadingEvent>)
    ensures LastReached(trail + more) == if AnyAdvance(more) then LastReached(more) else LastReached(trail)
  {
    hide Advance;
    var all, n := trail + more, |more| - 1;
    if more == [] {
      assert all == trail;
    } else {
      ReachGrows(trail, more[..n]);
      assert all[..|all| - 1] == trail + more[..n] && all[|all| - 1] == more[n];
      assert AnyAdvance(more) <==> AnyAdvance(more[..n]) || Advance(more[n]);
    }
  }

  predicate AnyAdvance(events: seq<ReadingEvent>) {
    exists i :: 0 <= i < |events| && Advance(events[i])
  }

  lemma CoverGrows(trail: seq<ReadingEvent>, more: seq<ReadingEvent>, p: int)
    ensures Covered(trail + more, p) <==> Covered(trail, p) || Covered(more, p)
  {
    var all := trail + more;
    assert forall i :: 0 <= i < |trail| ==> all[i] == trail[i];
    assert forall i :: 0 <= i < |more| ==> all[|trail| + i] == more[i];
  }

  /** One step's advance, if it makes one, is from the old page to the new one. */
  lemma StepMoves(before: Ledger, step: Step, p: int)
    ensures var added := Added(before, step);
            var from, to := RowOf(before).currentPage, RowOf(Apply(before, step)).currentPage;
            Gained(added) == Max(0, to - from) && (Covered(added, p) <==> from < p <= to) &&
            (AnyAdvance(added) <==> from < to) && (from < to ==> LastReached(added) == to)
  {
    hide ResolveStatus, Covered, Gained, AnyAdvance, LastReached, Emitted;
    if step.Update? && Acceptable(step.request, before.pageCount) {
      EmittedMoves(RowOf(before), NewRow(RowOf(before), step.request, before.pageCount), step.request.day, p);
    } else {
      NoTrail();
    }
  }

  lemma EmittedMoves(before: Row, after: Row, day: int, p: int)
    ensures var added, from, to := Emitted(before, after, day), before.currentPage, after.currentPage;
            Gained(added) == Max(0, to - from) && (Covered(added, p) <==> from < p <= to) &&
            (AnyAdvance(added) <==> from < to) && (from < to ==> LastReached(added) == to)
  {
    var added, from, to := Emitted(before, after, day), before.currentPage, after.currentPage;
    var moved := if from < to then [ReadingEvent(PositionAdvanced, Some(from), Some(to), day)] else [];
    var status := added[|moved|..];
    assert added == moved + status;
    GainGrows(moved, status);
    ReachGrows(moved, status);
    CoverGrows(moved, status, p);
    NoAdvance(status);
    NoTrail();
    if from < to {
      assert moved[..0] == [] && Advance(moved[0]);
      assert AnyAdvance(added) by {
        assert added[0] == moved[0];
      }
      assert Covered(moved, p) <==> moved[0].fromPage.value < p <= moved[0].toPage.value;
    }
  }

  lemma NoAdvance(events: seq<ReadingEvent>)
    requires |events| <= 1 && forall i :: 0 <= i < |events| ==> events[i].kind != PositionAdvanced
    ensures Gained(events) == 0 && !AnyAdvance(events) && forall p :: !Covered(events, p)
  {
    assert |events| == 1 ==> events[..0] == [];
  }

  /**
   Over any run of updates, each read and committed before the next one reads: the pages gained in the trail are the
   current page plus everything moved back; the advances cover exactly the pages up to the highest one reached; and the
   reader is never past the last advance.
   */
  lemma {:induction false} TrailConserves(steps: seq<Step>)
    ensures var ledger, page := After(steps), Page(steps);
            Gained(ledger.trail) == page + Backward(steps) &&
            (forall p :: Covered(ledger.trail, p) <==> 0 < p <= Highest(steps)) &&
            0 <= page <= LastReached(ledger.trail) && page <= Highest(steps)
  {
    hide Apply, Added, Covered, Gained, LastReached, AnyAdvance;
    if steps == [] {
      NoTrail();
    } else {
      var front, step := steps[..|steps| - 1], steps[|steps| - 1];
      var before := After(front);
      TrailConserves(front);
      StepAdds(before, step);
      var added := Added(before, step);
      GainGrows(before.trail, added);
      ReachGrows(before.trail, added);
      StepMoves(before, step, 0);
      PageStaysPositive(before, step);
      forall p
        ensures Covered(before.trail + added, p) <==> 0 < p <= Highest(steps)
      {
        CoverGrows(before.trail, added, p);
        StepMoves(before, step, p);
      }
    }
  }

  lemma NoTrail()
    ensures Gained([]) == 0 == LastReached([]) && LastStatusEvent([]) == None && !AnyAdvance([])
    ensures forall p :: !Covered([], p)
  {
  }

  lemma PageStaysPositive(before: Ledger, step: Step)
    requires 0 <= RowOf(before).currentPage
    ensures 0 <= RowOf(Apply(before, step)).currentPage
  {
  }

  // ------------------------------------------------------------ one update

  /** A row that is not there yet starts at page zero, not started, with no setting and nothing summarised. */
  predicate RowBefore(ledger: Ledger, row: Row) {
    if ledger.row == None then row == Row(0, 0, NotStarted, None) else ledger.row == Some(row)
  }

  /** The page is negative or past a last page that is known. */
  predicate OffTheBook(page: int, pageCount: Option<nat>) {
    page < 0 || (pageCount != None && pageCount.value < page)
  }

  /** A status given wins; else a page at or past the last completes, and any page past zero starts what was not. */
  predicate StatusIs(request: Request, pageCount: Option<nat>, before: Status, after: Status) {
    if request.status != None then request.status == Some(after)
    else if request.page == None || request.page.value <= 0 then after == before
    else if pageCount != None && pageCount.value <= request.page.value then after == Completed
    else after == if before == NotStarted then InProgress else before
  }

  /** The events of an update: its forward move, and then its change of status. */
  predicate EventsAre(before: Row, after: Row, day: int, events: seq<ReadingEvent>) {
    events ==
    (if after.currentPage <= before.currentPage then []
     else [ReadingEvent(PositionAdvanced, Some(before.currentPage), Some(after.currentPage), day)]) +
    (if after.status == before.status then []
     else if after.status == Completed then [ReadingEvent(Completion, None, Some(after.currentPage), day)]
     else [ReadingEvent(StatusChanged, None, Some(after.currentPage), day)])
  }

  /**
   An update is refused, and changes nothing, exactly when it names a page off the book. Else a page it names becomes
   the reader's, a setting it gives the document's, the status follows the rule, and the trail grows by its events.
   */
  lemma UpdateIs(ledger: Ledger, request: Request) returns (before: Row, after: Row, events: seq<ReadingEvent>)
    ensures RowBefore(ledger, before) && EventsAre(before, after, request.day, events)
    ensures Apply(ledger, Update(request)) ==
            if request.page != None && OffTheBook(request.page.value, ledger.pageCount) then ledger
            else Ledger(ledger.pageCount, Some(after), ledger.trail + events, ledger.summaries)
    ensures after.currentPage == if request.page == None then before.currentPage else request.page.value
    ensures after.lastSummarized == before.lastSummarized
    ensures after.spoilerSafe == if request.spoilerSafe == None then before.spoilerSafe else request.spoilerSafe.value
    ensures StatusIs(request, ledger.pageCount, before.status, after.status)
  {
    before := RowOf(ledger);
    after := NewRow(before, request, ledger.pageCount);
    events := Emitted(before, after, request.day);
  }

  // ------------------------------------------------------------------- status

  /** The last status event of a trail, if it has one. */
  function LastStatusEvent(trail: seq<ReadingEvent>): Option<EventKind> {
    if trail == [] then None
    else if trail[|trail| - 1].kind in {StatusChanged, Completion} then Some(trail[|trail| - 1].kind)
    else LastStatusEvent(trail[..|trail| - 1])
  }

  /** A document is completed exactly when the trail's last status event is a completion. */
  lemma {:induction false} CompletedIffRecorded(steps: seq<Step>)
    ensures RowOf(After(steps)).status == Completed <==>
            LastStatusEvent(After(steps).trail) == Some(Completion)
  {
    hide Apply, Added, LastStatusEvent;
    if steps == [] {
      NoTrail();
    } else {
      var front, step := steps[..|steps| - 1], steps[|steps| - 1];
      var before := After(front);
      CompletedIffRecorded(front);
      StepAdds(before, step);
      StepStatus(before, step);
    }
  }

  lemma StepStatus(before: Ledger, step: Step)
    ensures var after := Apply(before, step);
            LastStatusEvent(before.trail + Added(before, step)) ==
            if RowOf(after).status == RowOf(before).status then LastStatusEvent(before.trail)
            else Some(if RowOf(after).status == Completed then Completion else StatusChanged)
  {
    hide ResolveStatus, Emitted, LastStatusEvent;
    if step.Update? && Acceptable(step.request, before.pageCount) {
      var after := NewRow(RowOf(before), step.request, before.pageCount);
      EmittedStatus(before.trail, RowOf(before), after, step.request.day);
    } else {
      assert before.trail + [] == before.trail;
    }
  }

  lemma EmittedStatus(trail: seq<ReadingEvent>, before: Row, after: Row, day: int)
    ensures LastStatusEvent(trail + Emitted(before, after, day)) ==
            if after.status == before.status then LastStatusEvent(trail)
            else Some(if after.status == Completed then Completion else StatusChanged)
  {
    hide LastStatusEvent;
    var from, to, emitted := before.currentPage, after.currentPage, Emitted(before, after, day);
    var moved := if from < to then [ReadingEvent(PositionAdvanced, Some(from), Some(to), day)] else [];
    var status := emitted[|moved|..];
    StatusAppended(trail, moved);
    StatusAppended(trail + moved, status);
    assert trail + emitted == trail + moved + status;
  }

  lemma StatusAppended(trail: seq<ReadingEvent>, more: seq<ReadingEvent>)
    requires |more| <= 1
    ensures LastStatusEvent(trail + more) ==
            if more != [] && more[0].kind in {StatusChanged, Completion} then Some(more[0].kind)
            else LastStatusEvent(trail)
  {
    assert more != [] ==> (trail + more)[..|trail|] == trail;
    assert more == [] ==> trail + more == trail;
  }

  /** Where step `i` moves the reader, if it is an update that is accepted and names a page. */
  function MovedTo(steps: seq<Step>, i: nat): Option<int>
    requires i < |steps|
  {
    if steps[i].Update? && Acceptable(steps[i].request, After(steps[..i]).pageCount) then steps[i].request.page
    else None
  }

  /** Step `i` sets the status outright. */
  predicate Overrides(steps: seq<Step>, i: nat)
    requires i < |steps|
  {
    steps[i].Update? && Acceptable(steps[i].request, After(steps[..i]).pageCount) && steps[i].request.status.Some?
  }

  /** Step `i` moves to the last page, as far as the page count is known by then. */
  predicate ReachesEnd(steps: seq<Step>, i: nat)
    requires i < |steps|
  {
    var page, count := MovedTo(steps, i), After(steps[..i]).pageCount;
    page.Some? && 0 < page.value && count.Some? && count.value <= page.value
  }

  predicate ReachesEndSince(steps: seq<Step>, k: nat) {
    exists i :: k <= i < |steps| && ReachesEnd(steps, i)
  }

  predicate Starts(steps: seq<Step>, i: nat)
    requires i < |steps|
  {
    MovedTo(steps, i).Some? && 0 < MovedTo(steps, i).value
  }

  predicate StartsSince(steps: seq<Step>, k: nat) {
    exists i :: k <= i < |steps| && Starts(steps, i)
  }

  /** What a status becomes by moves alone. */
  function StatusByMoves(before: Status, reachesEnd: bool, starts: bool): Status {
    if reachesEnd then Completed else if starts && before == NotStarted then InProgress else before
  }

  /** From any point of a run on, until the next override, the status follows from the moves made since. */
  lemma {:induction false} StatusSince(steps: seq<Step>, k: nat)
    requires k <= |steps| && forall i :: k <= i < |steps| ==> !Overrides(steps, i)
    ensures RowOf(After(steps)).status ==
            StatusByMoves(RowOf(After(steps[..k])).status, ReachesEndSince(steps, k), StartsSince(steps, k))
    decreases |steps|
  {
    hide ReachesEnd, Starts, Overrides;
    if k == |steps| {
      assert steps[..k] == steps;
    } else {
      var n := |steps| - 1;
      var front := steps[..n];
      assert front[..k] == steps[..k];
      forall i | 0 <= i < n
        ensures ReachesEnd(front, i) == ReachesEnd(steps, i) && Starts(front, i) == Starts(steps, i)
        ensures Overrides(front, i) == Overrides(steps, i)
      {
        SamePrefix(steps, n, i);
      }
      StatusSince(front, k);
      assert ReachesEndSince(steps, k) <==> ReachesEndSince(front, k) || ReachesEnd(steps, n);
      assert StartsSince(steps, k) <==> StartsSince(front, k) || Starts(steps, n);
      LastStatus(steps);
    }
  }

  lemma SamePrefix(steps: seq<Step>, n: nat, i: nat)
    requires i < n <= |steps|
    ensures var front := steps[..n];
            ReachesEnd(front, i) == ReachesEnd(steps, i) && Starts(front, i) == Starts(steps, i) &&
            Overrides(front, i) == Overrides(steps, i)
  {
    assert steps[..n][..i] == steps[..i];
  }

  lemma LastStatus(steps: seq<Step>)
    requires steps != [] && !Overrides(steps, |steps| - 1)
    ensures var n := |steps| - 1;
            RowOf(After(steps)).status ==
            StatusByMoves(RowOf(After(steps[..n])).status, ReachesEnd(steps, n), Starts(steps, n))
  {
  }

  /** The status the highest page ever reached deserves, by the page count as it is known now. */
  function EarnedStatus(highest: int, pageCount: Option<nat>): Status {
    if 0 < highest && pageCount.Some? && pageCount.value <= highest then Completed
    else if 0 < highest then InProgress
    else NotStarted
  }

  /** The reader had been at the end before the page count was known, and has not come back to it since. */
  predicate CountCameLate(steps: seq<Step>) {
    var count := After(steps).pageCount;
    count.Some? && count.value <= Highest(steps) && 0 < Highest(steps) && !ReachesEndSince(steps, 0)
  }

  /** The reader was at the end by a page count that has grown since. */
  predicate CountGrew(steps: seq<Step>) {
    var count := After(steps).pageCount;
    count.Some? && Highest(steps) < count.value && ReachesEndSince(steps, 0)
  }

  /** Never overridden, the status is the earned one exactly when the page count came neither late nor twice. */
  lemma StatusIsEarnedIff(steps: seq<Step>)
    requires forall i :: 0 <= i < |steps| ==> !Overrides(steps, i)
    ensures RowOf(After(steps)).status == EarnedStatus(Highest(steps), After(steps).pageCount) <==>
            !CountCameLate(steps) && !CountGrew(steps)
  {
    hide ReachesEnd, Starts, Overrides;
    StatusSince(steps, 0);
    assert steps[..0] == [];
    HighestStarts(steps);
    CountStays(steps);
  }

  /** A reader is past page zero at some time exactly when some move started. */
  lemma {:induction false} HighestStarts(steps: seq<Step>)
    ensures 0 <= Page(steps) <= Highest(steps)
    ensures 0 < Highest(steps) <==> StartsSince(steps, 0)
    ensures ReachesEndSince(steps, 0) ==> StartsSince(steps, 0)
  {
    hide After;
    if steps == [] {
      NothingRead();
    } else {
      var n := |steps| - 1;
      HighestStarts(steps[..n]);
      forall i | 0 <= i < n
        ensures Starts(steps[..n], i) == Starts(steps, i)
      {
        SamePrefix(steps, n, i);
      }
      assert StartsSince(steps, 0) <==> StartsSince(steps[..n], 0) || Starts(steps, n);
      PageMoves(steps);
      if i :| 0 <= i < |steps| && ReachesEnd(steps, i) {
        assert Starts(steps, i);
      }
    }
  }

  lemma NothingRead()
    ensures Page([]) == 0
  {
  }

  lemma PageMoves(steps: seq<Step>)
    requires steps != []
    ensures var n := |steps| - 1;
            Page(steps) == if MovedTo(steps, n).Some? then MovedTo(steps, n).value else Page(steps[..n])
    ensures MovedTo(steps, |steps| - 1).Some? ==> 0 <= MovedTo(steps, |steps| - 1).value
  {
  }

  /** A page count is known once it was known at any time. */
  lemma {:induction false} CountStays(steps: seq<Step>)
    ensures ReachesEndSince(steps, 0) ==> After(steps).pageCount.Some?
  {
    if i :| 0 <= i < |steps| && ReachesEnd(steps, i) {
      CountStaysFrom(steps, i);
    }
  }

  lemma {:induction false} CountStaysFrom(steps: seq<Step>, i: nat)
    requires i <= |steps| && After(steps[..i]).pageCount.Some?
    ensures After(steps).pageCount.Some?
    decreases |steps|
  {
    var n := |steps| - 1;
    if i == |steps| {
      assert steps[..i] == steps;
    } else {
      assert steps[..n][..i] == steps[..i];
      CountStaysFrom(steps[..n], i);
    }
  }

  /** Late: five pages read of a document that turns out to have three, and the status stays in progress. */
  lemma LateCountIsNotCompleted()
    ensures var steps := [MoveTo(5), CountPages(3), Update(Request(None, None, Some(Some(true)), 0))];
            var ledger := After(steps);
            ledger.pageCount == Some(3) && ledger.row == Some(Row(5, 0, InProgress, Some(true))) &&
            EarnedStatus(5, ledger.pageCount) == Completed
  {
    var steps := [MoveTo(5), CountPages(3), Update(Request(None, None, Some(Some(true)), 0))];
    assert steps[..2] == [MoveTo(5), CountPages(3)] && steps[..2][..1] == [MoveTo(5)] && [MoveTo(5)][..0] == [];
    var read := After([MoveTo(5)]);
    assert read.row == Some(Row(5, 0, InProgress, None)) && read.pageCount == None;
    assert After(steps[..2]) == read.(pageCount := Some(3));
  }

  // ---------------------------------------------------------------- summaries

  /** The ranges follow one another from page 1 to `mark`. */
  predicate Tiles(summaries: seq<Range>, mark: int) {
    if summaries == [] then mark == 0
    else
      var range := summaries[|summaries| - 1];
      range.first <= range.last == mark && Tiles(summaries[..|summaries| - 1], range.first - 1)
  }

  predicate In(range: Range, p: int) {
    range.first <= p <= range.last
  }

  /** Tiling means what it should: a page up to the mark is in exactly one range, any other page in none. */
  lemma {:induction false} TilesMeans(summaries: seq<Range>, mark: int, p: int)
    requires Tiles(summaries, mark)
    ensures 0 <= mark
    ensures 1 <= p <= mark ==> exists i :: 0 <= i < |summaries| && In(summaries[i], p)
    ensures forall i :: 0 <= i < |summaries| && In(summaries[i], p) ==> 1 <= p <= mark
    ensures forall i, j :: 0 <= i < j < |summaries| ==> !In(summaries[i], p) || !In(summaries[j], p)
  {
    if summaries != [] {
      var n := |summaries| - 1;
      var front, range := summaries[..n], summaries[n];
      TilesMeans(front, range.first - 1, p);
      assert summaries == front + [range];
      if i :| 0 <= i < n && In(front[i], p) {
        assert In(summaries[i], p);
      } else {
        assert In(summaries[n], p) <==> range.first <= p <= range.last;
      }
    }
  }

  predicate Tiled(ledger: Ledger) {
    Tiles(ledger.summaries, RowOf(ledger).lastSummarized)
  }

  /** One end of the range: the answer's own page if it gives one, else the proposed one. */
  predicate EndIs(given: Option<int>, proposed: int, page: int) {
    given == Some(page) || (given == None && page == proposed)
  }

  /**
   A confirmation saves a range exactly when pages were read past the mark, it is not a denial, the range holds text,
   starts at page one or later and does not end before it starts; each end is the answer's, or else the first page past
   the mark and the current page.
   */
  lemma SavedRangeIff(ledger: Ledger, answer: Answer, chunksFound: bool, range: Range)
    ensures SavedRange(ledger, answer, chunksFound) == Some(range) <==>
            ledger.row != None && ledger.row.value.lastSummarized < ledger.row.value.currentPage &&
            answer.action != Deny && chunksFound && 1 <= range.first <= range.last &&
            EndIs(answer.pageStart, ledger.row.value.lastSummarized + 1, range.first) &&
            EndIs(answer.pageEnd, ledger.row.value.currentPage, range.last)
  {
  }

  /** A save adds its range behind the others, and moves only the mark, to the range's end if that is further. */
  lemma ConfirmIs(ledger: Ledger, answer: Answer, chunksFound: bool, advances: bool)
    ensures var after := Apply(ledger, Confirm(answer, chunksFound, advances));
            match SavedRange(ledger, answer, chunksFound)
            case None => after == ledger
            case Some(range) =>
              ledger.row != None && after.row != None && after.summaries == ledger.summaries + [range] &&
              after.pageCount == ledger.pageCount && after.trail == ledger.trail &&
              after.row.value == ledger.row.value.(lastSummarized :=
                if advances && ledger.row.value.lastSummarized < range.last then range.last
                else ledger.row.value.lastSummarized)
  {
  }

  /** A save keeps the tiling exactly when both commits succeed and the range starts right after the mark. */
  lemma SaveKeepsTilingIff(ledger: Ledger, answer: Answer, chunksFound: bool, advances: bool)
    requires Tiled(ledger) && SavedRange(ledger, answer, chunksFound).Some?
    ensures Tiled(Confirmed(ledger, answer, chunksFound, advances)) <==>
            advances && SavedRange(ledger, answer, chunksFound).value.first == RowOf(ledger).lastSummarized + 1
  {
    var range := SavedRange(ledger, answer, chunksFound).value;
    var after := Confirmed(ledger, answer, chunksFound, advances);
    assert after.summaries[..|after.summaries| - 1] == ledger.summaries;
    if Tiled(after) {
      TilesOnce(ledger.summaries, RowOf(ledger).lastSummarized, range.first - 1);
    }
  }

  /** An edited start breaks it: pages 3 to 5 are saved, the mark says 5, and pages 1 and 2 are in no summary. */
  lemma EditedStartLeavesGap()
    ensures var ledger := After([MoveTo(5), Confirm(Answer(Edit, None, Some(3), None), true, true)]);
            ledger.summaries == [Range(3, 5)] && RowOf(ledger).lastSummarized == 5 && !Tiled(ledger)
  {
    var answer := Answer(Edit, None, Some(3), None);
    ReadToFive(Confirm(answer, true, true));
    assert Confirmed(After([MoveTo(5)]), answer, true, true).summaries == [] + [Range(3, 5)];
    SaveKeepsTilingIff(After([MoveTo(5)]), answer, true, true);
  }

  /** A lost mark breaks it: pages 1 to 5 are saved, the mark says 0, and the same range is proposed and saved again. */
  lemma LostMarkRepeats()
    ensures var once := After([MoveTo(5), Confirm(AS_PROPOSED, true, false)]);
            once.summaries == [Range(1, 5)] && RowOf(once).lastSummarized == 0 && !Tiled(once) &&
            SavedRange(once, AS_PROPOSED, true) == Some(Range(1, 5))
  {
    ReadToFive(Confirm(AS_PROPOSED, true, false));
    assert Confirmed(After([MoveTo(5)]), AS_PROPOSED, true, false).summaries == [] + [Range(1, 5)];
    SaveKeepsTilingIff(After([MoveTo(5)]), AS_PROPOSED, true, false);
  }

  lemma ReadToFive(step: Step)
    ensures var read := After([MoveTo(5)]);
            read.row == Some(Row(5, 0, InProgress, None)) && read.summaries == [] && Tiled(read) &&
            After([MoveTo(5), step]) == Apply(read, step)
  {
    assert [MoveTo(5), step][..1] == [MoveTo(5)] && [MoveTo(5)][..0] == [];
  }

  lemma TilesOnce(summaries: seq<Range>, mark: int, other: int)
    requires Tiles(summaries, mark) && Tiles(summaries, other)
    ensures mark == other
  {
  }

  /** The reader changed neither end of the proposal, and the mark's commit came. */
  predicate Plain(step: Step) {
    step.Confirm? ==> step.advances && step.answer.pageStart == None && step.answer.pageEnd == None
  }

  /** Confirmed as proposed, the summaries always tile the pages up to the mark. */
  lemma {:induction false} SummariesTile(steps: seq<Step>)
    requires forall i :: 0 <= i < |steps| ==> Plain(steps[i])
    ensures Tiled(After(steps))
  {
    if steps == [] {
    } else {
      var front, step := steps[..|steps| - 1], steps[|steps| - 1];
      SummariesTile(front);
      var before := After(front);
      if step.Confirm? && SavedRange(before, step.answer, step.chunksFound).Some? {
        SaveKeepsTilingIff(before, step.answer, step.chunksFound, step.advances);
      }
    }
  }

  /** Whatever the reader answers, the mark only moves forward and no summary is lost or changed. */
  lemma MarkMovesForward(ledger: Ledger, step: Step)
    ensures var after := Apply(ledger, step);
            RowOf(ledger).lastSummarized <= RowOf(after).lastSummarized && ledger.summaries <= after.summaries &&
            ledger.trail <= after.trail
  {
    StepAdds(ledger, step);
  }

  function MoveTo(page: int): Step {
    Update(Request(Some(page), None, None, 0))
  }

  const AS_PROPOSED := Answer(Approve, None, None, None)

  /** The mark may pass the current page: the reader goes back after a summary. */
  lemma MarkMayPassThePage()
    ensures var row := RowOf(After([MoveTo(5), Confirm(AS_PROPOSED, true, true), MoveTo(2)]));
            row.currentPage == 2 && row.lastSummarized == 5
  {
    var steps := [MoveTo(5), Confirm(AS_PROPOSED, true, true), MoveTo(2)];
    assert steps[..2][..1] == [MoveTo(5)] && [MoveTo(5)][..0] == [];
    var read := After([MoveTo(5)]);
    assert read.row == Some(Row(5, 0, InProgress, None));
    var summarized := After(steps[..2]);
    assert summarized == Confirmed(read, AS_PROPOSED, true, true);
    assert summarized.row == Some(Row(5, 5, InProgress, None));
  }

  /** The graph's resumed node saves exactly the range this ledger says. */
  lemma GraphSavesRange(state: Checkpoint, world: World, ledger: Ledger, range: Range)
    requires state.activeDocument.Some? && state.rounds != []
    requires world.position == match ledger.row
                               case None => None
                               case Some(row) => Some(Position(row.currentPage, row.lastSummarized, row.spoilerSafe))
    ensures SummarySaved(state.activeDocument.value, range.first, range.last) in
            RunPersistMemory(state, world).entries <==>
            SavedRange(ledger, state.rounds[0].answer, world.chunksFound) == Some(range)
  {
  }
}
