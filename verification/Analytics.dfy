/** Pages by day and streaks, computed from a reader's event trail. */
module Analytics {
  import opened Reading
  import opened ReadingLaws
  import ReadingRaces
  import opened Shared

  // ------------------------------------------------------------ pages by day

  /** The pages gained on one day. */
  function GainedOn(events: seq<ReadingEvent>, day: int): nat {
    if events == [] then 0
    else
      var event := events[|events| - 1];
      GainedOn(events[..|events| - 1], day) + if event.day == day then GainOf(event) else 0
  }

  /** Sum forward movement per day; only days with some are listed. */
  method PagesByDay(events: seq<ReadingEvent>) returns (totals: map<int, nat>)
    ensures forall day :: day in totals <==> 0 < GainedOn(events, day)
    ensures forall day :: day in totals ==> totals[day] == GainedOn(events, day)
  {
    totals := map[];
    for i := 0 to |events|
      invariant forall day :: day in totals <==> 0 < GainedOn(events[..i], day)
      invariant forall day :: day in totals ==> totals[day] == GainedOn(events[..i], day)
    {
      var event := events[i];
      assert events[..i + 1][..i] == events[..i];
      if event.kind != PositionAdvanced || event.fromPage.None? || event.toPage.None? {
        continue;
      }
      var gained := event.toPage.value - event.fromPage.value;
      if 0 < gained {
        totals := totals[event.day := (if event.day in totals then totals[event.day] else 0) + gained];
      }
    }
    assert events[..|events|] == events;
  }

  /** What a day's sum is: the pages of the advances on that day, one event after another. */
  lemma GainedOnIs(events: seq<ReadingEvent>, event: ReadingEvent, day: int)
    ensures GainedOn([], day) == 0
    ensures GainedOn(events + [event], day) ==
            GainedOn(events, day) +
            match (event.kind, event.fromPage, event.toPage)
            case (PositionAdvanced, Some(from), Some(to)) => if event.day == day && from < to then to - from else 0
            case _ => 0
  {
    assert (events + [event])[..|events|] == events;
  }

  predicate Ascending(days: seq<int>) {
    forall i, j :: 0 <= i < j < |days| ==> days[i] < days[j]
  }

  /** `sum(pages_by_day.values())`, over the days in order. */
  function PagesOn(events: seq<ReadingEvent>, days: seq<int>): nat {
    if days == [] then 0 else PagesOn(events, days[..|days| - 1]) + GainedOn(events, days[|days| - 1])
  }

  lemma {:induction false} PagesOnAppend(events: seq<ReadingEvent>, event: ReadingEvent, days: seq<int>)
    requires Ascending(days)
    ensures PagesOn(events + [event], days) == PagesOn(events, days) + if event.day in days then GainOf(event) else 0
  {
    assert (events + [event])[..|events|] == events;
    if days != [] {
      var n := |days| - 1;
      PagesOnAppend(events, event, days[..n]);
      assert days == days[..n] + [days[n]];
      assert event.day == days[n] ==> event.day !in days[..n];
    }
  }

  /** Every page gained is counted on exactly one of the active days. */
  lemma {:induction false} PagesAddUp(events: seq<ReadingEvent>, days: seq<int>)
    requires Ascending(days) && forall day :: 0 < GainedOn(events, day) ==> day in days
    ensures PagesOn(events, days) == Gained(events)
  {
    if events == [] {
      NothingOn(days);
    } else {
      var n := |events| - 1;
      assert events == events[..n] + [events[n]];
      assert forall day :: GainedOn(events[..n], day) <= GainedOn(events, day);
      PagesAddUp(events[..n], days);
      PagesOnAppend(events[..n], events[n], days);
      assert GainOf(events[n]) <= GainedOn(events, events[n].day);
    }
  }

  lemma {:induction false} NothingOn(days: seq<int>)
    ensures PagesOn([], days) == 0
  {
    if days != [] {
      NothingOn(days[..|days| - 1]);
    }
  }

  /** So the pages read, over a whole serial run of one document, are where the reader is plus everything moved back. */
  lemma PagesReadConserved(steps: seq<Step>, days: seq<int>)
    requires Ascending(days)
    requires forall day :: 0 < GainedOn(After(steps).trail, day) ==> day in days
    ensures PagesOn(After(steps).trail, days) == Page(steps) + Backward(steps)
  {
    PagesAddUp(After(steps).trail, days);
    TrailConserves(steps);
  }

  /** With interleaved sessions the pages read are off by what the racing commits miscounted, and by nothing else. */
  lemma PagesReadAccount(actions: seq<ReadingRaces.Action>, days: seq<int>)
    requires Ascending(days)
    requires var trail := ReadingRaces.Raced(actions).ledger.trail;
             forall day :: 0 < GainedOn(trail, day) ==> day in days
    ensures PagesOn(ReadingRaces.Raced(actions).ledger.trail, days) ==
            ReadingRaces.PageOf(ReadingRaces.Raced(actions)) + ReadingRaces.MovedBack(actions) +
            ReadingRaces.MiscountedAlong(actions)
  {
    PagesAddUp(ReadingRaces.Raced(actions).ledger.trail, days);
    ReadingRaces.TrailAccount(actions);
  }

  // ------------------------------------------------------------------ streaks

  /** `length` consecutive active days, the last of them `last`. */
  predicate IsRun(active: set<int>, last: int, length: nat) {
    forall day :: last - length < day <= last ==> day in active
  }

  function Least(days: set<int>): (least: int)
    requires days != {}
    ensures least in days && forall day :: day in days ==> least <= day
  {
    LeastExists(days);
    var least :| least in days && forall day :: day in days ==> least <= day;
    least
  }

  lemma {:induction false} LeastExists(days: set<int>)
    requires days != {}
    ensures exists least :: least in days && forall day :: day in days ==> least <= day
    decreases |days|
  {
    assert (forall day :: day !in days) ==> days == {};
    var some :| some in days;
    var rest := days - {some};
    if rest == {} {
      assert forall day :: day in days ==> day == some || day in rest;
    } else {
      LeastExists(rest);
      var least :| least in rest && forall day :: day in rest ==> least <= day;
      assert forall day :: day in days ==> day == some || day in rest;
      var lower := if some <= least then some else least;
      assert lower in days && forall day :: day in days ==> lower <= day;
    }
  }

  /** `sorted(days)`. */
  function Sorted(days: set<int>): (ordered: seq<int>)
    ensures Ascending(ordered)
    ensures forall day :: day in ordered <==> day in days
    decreases |days|
  {
    if days == {} then []
    else
      var least := Least(days);
      [least] + Sorted(days - {least})
  }

  lemma RunStopsAtGap(active: set<int>, gap: int, last: int, length: nat)
    requires IsRun(active, last, length) && gap !in active && gap <= last
    ensures length <= last - gap
  {
  }

  function DaysUpTo(active: set<int>, cursor: int): (days: set<int>)
    ensures forall day :: day in days <==> day in active && day <= cursor
  {
    set day | day in active && day <= cursor
  }

  /**
   The longest streak is the largest number of consecutive active days anywhere; the current streak is the largest such
   run that ends today, and no longer than the longest.
   */
  method Streaks(active: set<int>, today: int) returns (current: nat, longest: nat)
    ensures exists last :: IsRun(active, last, longest)
    ensures forall last, length: nat :: IsRun(active, last, length) ==> length <= longest
    ensures forall length: nat :: IsRun(active, today, length) <==> length <= current
    ensures current <= longest
  {
    if active == {} {
      LongestAnywhere(active, [], 0);
      assert IsRun(active, today, 0);
      return 0, 0;
    }
    hide Sorted, Least;
    var ordered := Sorted(active);
    var run := 1;
    longest := 1;
    ghost var best := ordered[0];
    NothingBetween(active, ordered, 0, best - 1);
    forall length: nat | IsRun(active, best, length)
      ensures length <= 1
    {
      RunStopsAtGap(active, best - 1, best, length);
    }
    for i := 1 to |ordered|
      invariant 1 <= run <= longest
      invariant IsRun(active, ordered[i - 1], run) && ordered[i - 1] - run !in active
      invariant IsRun(active, best, longest)
      invariant forall j, length: nat :: 0 <= j < i && IsRun(active, ordered[j], length) ==> length <= longest
    {
      var previous, day := ordered[i - 1], ordered[i];
      run := if day - previous == 1 then run + 1 else 1;
      if day - previous != 1 {
        NothingBetween(active, ordered, i, day - 1);
      }
      forall length: nat | IsRun(active, day, length)
        ensures length <= run
      {
        RunStopsAtGap(active, day - run, day, length);
      }
      if longest < run {
        longest, best := run, day;
      }
    }
    LongestAnywhere(active, ordered, longest);
    current := 0;
    var cursor := today;
    while cursor in active
      invariant cursor == today - current && IsRun(active, today, current)
      decreases DaysUpTo(active, cursor)
    {
      assert cursor in DaysUpTo(active, cursor) && cursor !in DaysUpTo(active, cursor - 1);
      current := current + 1;
      cursor := cursor - 1;
    }
    forall length: nat
      ensures IsRun(active, today, length) <==> length <= current
    {
      if IsRun(active, today, length) {
        RunStopsAtGap(active, cursor, today, length);
      }
    }
  }

  lemma LongestAnywhere(active: set<int>, ordered: seq<int>, longest: nat)
    requires forall day :: day in ordered <==> day in active
    requires forall j, length: nat :: 0 <= j < |ordered| && IsRun(active, ordered[j], length) ==> length <= longest
    ensures forall last, length: nat :: IsRun(active, last, length) ==> length <= longest
  {
    forall last, length: nat | IsRun(active, last, length)
      ensures length <= longest
    {
      if last in active {
        var j :| 0 <= j < |ordered| && ordered[j] == last;
      } else {
        RunStopsAtGap(active, last, last, length);
      }
    }
  }

  /** Neighbours in the sorted order have no active day between them, and the first has none before it. */
  lemma NothingBetween(active: set<int>, ordered: seq<int>, i: nat, day: int)
    requires Ascending(ordered) && forall day :: day in ordered <==> day in active
    requires i < |ordered| && day < ordered[i] && (0 < i ==> ordered[i - 1] < day)
    ensures day !in active
  {
  }

  // ------------------------------------------------------------------ summary

  datatype PagesOnDay = PagesOnDay(day: int, pages: nat)

  datatype Summary = Summary(
    windowDays: nat,
    pagesRead: nat,
    activeDays: nat,
    paceHundredths: nat,
    currentStreak: nat,
    longestStreak: nat,
    started: nat,
    completed: nat,
    cancelled: nat,
    series: seq<PagesOnDay>)

  /** Pages were gained on each of `length` consecutive days, the last of them `last`. */
  predicate ReadRun(events: seq<ReadingEvent>, last: int, length: nat) {
    forall day :: last - length < day <= last ==> 0 < GainedOn(events, day)
  }

  /** A run of no days is anywhere; one of one day more is a day with pages gained and a run up to the day before. */
  lemma ReadRunIs(events: seq<ReadingEvent>, last: int, length: nat)
    ensures ReadRun(events, last, 0)
    ensures ReadRun(events, last, length + 1) <==> 0 < GainedOn(events, last) && ReadRun(events, last - 1, length)
  {
    hide GainedOn;
  }

  /** The series lists each active day once, in order, with what was gained on it. */
  ghost predicate SeriesOf(events: seq<ReadingEvent>, series: seq<PagesOnDay>) {
    (forall i, j :: 0 <= i < j < |series| ==> series[i].day < series[j].day) &&
    (forall i :: 0 <= i < |series| ==> 0 < series[i].pages == GainedOn(events, series[i].day)) &&
    (forall day :: 0 < GainedOn(events, day) ==> exists i :: 0 <= i < |series| && series[i].day == day)
  }

  lemma RunsAgree(active: set<int>, events: seq<ReadingEvent>)
    requires forall day :: day in active <==> 0 < GainedOn(events, day)
    ensures forall last, length: nat :: IsRun(active, last, length) <==> ReadRun(events, last, length)
  {
  }

  /** The pages in all, and the series of active days. */
  method TotalAndSeries(events: seq<ReadingEvent>, totals: map<int, nat>)
    returns (pagesRead: nat, series: seq<PagesOnDay>)
    requires forall day :: day in totals <==> 0 < GainedOn(events, day)
    requires forall day :: day in totals ==> totals[day] == GainedOn(events, day)
    ensures pagesRead == Gained(events) && SeriesOf(events, series)
  {
    hide Gained, GainedOn, PagesOn, SeriesOf, Ascending;
    var days := Sorted(totals.Keys);
    pagesRead, series := 0, [];
    PagesOnMore(events, days, 0);
    for i := 0 to |days|
      invariant pagesRead == PagesOn(events, days[..i])
      invariant series == SeriesOn(events, days[..i])
    {
      assert days[i] in totals;
      PagesOnMore(events, days, i);
      pagesRead := pagesRead + totals[days[i]];
      series := series + [PagesOnDay(days[i], totals[days[i]])];
    }
    assert days[..|days|] == days;
    PagesAddUp(events, days);
    SeriesListsAll(events, days);
  }

  function SeriesOn(events: seq<ReadingEvent>, days: seq<int>): (series: seq<PagesOnDay>)
    ensures |series| == |days|
    ensures forall i :: 0 <= i < |days| ==> series[i] == PagesOnDay(days[i], GainedOn(events, days[i]))
  {
    if days == [] then []
    else
      var day := days[|days| - 1];
      SeriesOn(events, days[..|days| - 1]) + [PagesOnDay(day, GainedOn(events, day))]
  }

  lemma PagesOnMore(events: seq<ReadingEvent>, days: seq<int>, i: nat)
    requires i <= |days|
    ensures i == 0 ==> PagesOn(events, days[..i]) == 0 && SeriesOn(events, days[..i]) == []
    ensures i < |days| ==>
              var day := PagesOnDay(days[i], GainedOn(events, days[i]));
              PagesOn(events, days[..i + 1]) == PagesOn(events, days[..i]) + day.pages &&
              SeriesOn(events, days[..i + 1]) == SeriesOn(events, days[..i]) + [day]
  {
    if i < |days| {
      assert days[..i + 1][..i] == days[..i];
    }
  }

  lemma SeriesListsAll(events: seq<ReadingEvent>, days: seq<int>)
    requires Ascending(days) && forall day :: day in days <==> 0 < GainedOn(events, day)
    ensures SeriesOf(events, SeriesOn(events, days))
  {
    hide GainedOn, SeriesOn;
    var series := SeriesOn(events, days);
    forall day | 0 < GainedOn(events, day)
      ensures exists i :: 0 <= i < |series| && series[i].day == day
    {
      var i :| 0 <= i < |days| && days[i] == day;
      assert series[i].day == day;
    }
    assert forall i :: 0 <= i < |days| ==> days[i] in days;
  }

  /** `hundredths` is a nearest hundredth to `pages` over `days`. */
  predicate Nearest(hundredths: nat, pages: nat, days: nat) {
    200 * pages - days <= 2 * days * hundredths <= 200 * pages + days
  }

  /** `round(pages / days, 2)`, in hundredths. */
  function Pace(pages: nat, days: nat): (hundredths: nat)
    ensures days == 0 ==> hundredths == 0
    ensures 0 < days ==> Nearest(hundredths, pages, days)
  {
    if days == 0 then 0
    else
      var hundredths := (200 * pages + days) / (2 * days);
      assert 2 * days * hundredths <= 200 * pages + days < 2 * days * hundredths + 2 * days;
      hundredths
  }

  /** `status_counts.get(status, 0)`. */
  function CountOf(statusCounts: map<Status, nat>, status: Status): nat {
    if status in statusCounts then statusCounts[status] else 0
  }

  /** Aggregate a trail and the counts by status. */
  method Compute(events: seq<ReadingEvent>, statusCounts: map<Status, nat>, today: int, windowDays: nat)
    returns (summary: Summary)
    ensures summary.windowDays == windowDays
    ensures summary.pagesRead == Gained(events)
    ensures SeriesOf(events, summary.series) && summary.activeDays == |summary.series|
    ensures if summary.series == [] then summary.paceHundredths == 0
            else Nearest(summary.paceHundredths, Gained(events), |summary.series|)
    ensures exists last :: ReadRun(events, last, summary.longestStreak)
    ensures forall last, length: nat :: ReadRun(events, last, length) ==> length <= summary.longestStreak
    ensures forall length: nat :: ReadRun(events, today, length) <==> length <= summary.currentStreak
    ensures summary.started == CountOf(statusCounts, InProgress)
    ensures summary.completed == CountOf(statusCounts, Completed)
    ensures summary.cancelled == CountOf(statusCounts, Cancelled)
  {
    hide Gained, GainedOn, SeriesOf, IsRun, ReadRun, Nearest;
    var totals := PagesByDay(events);
    var pagesRead, series := TotalAndSeries(events, totals);
    var current, longest := Streaks(totals.Keys, today);
    RunsAgree(totals.Keys, events);
    summary := Summary(windowDays, pagesRead, |series|, Pace(pagesRead, |series|), current, longest,
                       CountOf(statusCounts, InProgress), CountOf(statusCounts, Completed),
                       CountOf(statusCounts, Cancelled), series);
  }
}
