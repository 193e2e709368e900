/**
 Sessions of one reader that interleave: each reads the page count, then the row, then commits, with no lock and no
 version column between. What the trail still conserves, and exactly when it conserves what it does in serial runs.
 */
module ReadingRaces {
  import opened Reading
  import opened ReadingLaws
  import opened Shared

  /**
   A session between two of its awaits: an update that has the page count, one that has the row as well, and an
   advance of the summary mark that has the mark.
   */
  datatype Session =
    | Opened(request: Request, pageCount: Option<nat>)
    | Looked(request: Request, pageCount: Option<nat>, seen: Option<Row>)
    | Marking(page: int, seenMark: int)

  /** What is stored, and the sessions in flight. The trail is in the order of the commits. */
  datatype State = State(ledger: Ledger, sessions: map<nat, Session>)

  const START := State(Reading.EMPTY, map[])

  datatype Action =
    | Count(pages: nat)
    | Open(id: nat, request: Request)
    | Look(id: nat)
    | Save(id: nat)
    | Drop(id: nat)
    | LookMark(id: nat, page: int)
    | SaveMark(id: nat)

  /** The row as a session sees it; one it does not find it makes afresh. */
  function SeenRow(seen: Option<Row>): Row {
    if seen.Some? then seen.value else FRESH
  }

  /** Only the columns that the session changed from what it saw are written over what is stored. */
  function Merged(stored: Row, seen: Row, changed: Row): Row {
    Row(if changed.currentPage != seen.currentPage then changed.currentPage else stored.currentPage,
        stored.lastSummarized,
        if changed.status != seen.status then changed.status else stored.status,
        if changed.spoilerSafe != seen.spoilerSafe then changed.spoilerSafe else stored.spoilerSafe)
  }

  /** So a column the session changed ends as it left it, and any other as it is stored; the mark is not its own. */
  lemma MergedIs(stored: Row, seen: Row, changed: Row)
    ensures var row := Merged(stored, seen, changed);
            (row.currentPage != stored.currentPage ==> row.currentPage == changed.currentPage != seen.currentPage) &&
            (changed.currentPage != seen.currentPage ==> row.currentPage == changed.currentPage) &&
            (row.status != stored.status ==> row.status == changed.status != seen.status) &&
            (changed.status != seen.status ==> row.status == changed.status) &&
            (row.spoilerSafe != stored.spoilerSafe ==> row.spoilerSafe == changed.spoilerSafe != seen.spoilerSafe) &&
            (changed.spoilerSafe != seen.spoilerSafe ==> row.spoilerSafe == changed.spoilerSafe) &&
            row.lastSummarized == stored.lastSummarized
  {
  }

  /** A refused page commits nothing, and neither does a second insert of the row: its key is unique. */
  predicate Commits(ledger: Ledger, session: Session)
    requires session.Looked?
  {
    Acceptable(session.request, session.pageCount) && (ledger.row.Some? ==> session.seen.Some?)
  }

  function Committed(ledger: Ledger, session: Session): Ledger
    requires session.Looked?
  {
    if !Commits(ledger, session) then ledger
    else
      var seen := SeenRow(session.seen);
      var changed := NewRow(seen, session.request, session.pageCount);
      ledger.(row := Some(Merged(RowOf(ledger), seen, changed)),
              trail := ledger.trail + Emitted(seen, changed, session.request.day))
  }

  /** The larger of the page and the mark it saw; written only if that is a change. */
  function MarkCommitted(ledger: Ledger, session: Session): Ledger
    requires session.Marking?
  {
    if ledger.row.None? || session.page <= session.seenMark then ledger
    else ledger.(row := Some(ledger.row.value.(lastSummarized := session.page)))
  }

  predicate Enabled(s: State, action: Action) {
    match action
    case Count(_) => true
    case Open(id, _) => id !in s.sessions
    case Look(id) => id in s.sessions && s.sessions[id].Opened?
    case Save(id) => id in s.sessions && s.sessions[id].Looked?
    case Drop(id) => id in s.sessions
    case LookMark(id, _) => id !in s.sessions && s.ledger.row.Some?
    case SaveMark(id) => id in s.sessions && s.sessions[id].Marking?
  }

  /** One action; one that is not enabled does nothing. */
  function Act(s: State, action: Action): State {
    if !Enabled(s, action) then s
    else
      match action
      case Count(pages) => s.(ledger := s.ledger.(pageCount := Some(pages)))
      case Open(id, request) => s.(sessions := s.sessions[id := Opened(request, s.ledger.pageCount)])
      case Look(id) =>
        var Opened(request, pageCount) := s.sessions[id];
        s.(sessions := s.sessions[id := Looked(request, pageCount, s.ledger.row)])
      case Save(id) => State(Committed(s.ledger, s.sessions[id]), s.sessions - {id})
      case Drop(id) => s.(sessions := s.sessions - {id})
      case LookMark(id, page) => s.(sessions := s.sessions[id := Marking(page, s.ledger.row.value.lastSummarized)])
      case SaveMark(id) => State(MarkCommitted(s.ledger, s.sessions[id]), s.sessions - {id})
  }

  /** The state after any interleaving. */
  function Raced(actions: seq<Action>): State {
    if actions == [] then START else Act(Raced(actions[..|actions| - 1]), actions[|actions| - 1])
  }

  function PageOf(s: State): int {
    RowOf(s.ledger).currentPage
  }

  /** The highest page an interleaving ever was on. */
  function HighestOf(actions: seq<Action>): int {
    if actions == [] then 0 else Max(HighestOf(actions[..|actions| - 1]), PageOf(Raced(actions)))
  }

  /** How far it moved back in all. */
  function MovedBack(actions: seq<Action>): nat {
    if actions == [] then 0
    else
      var front := actions[..|actions| - 1];
      MovedBack(front) + Max(0, PageOf(Raced(front)) - PageOf(Raced(actions)))
  }

  // --------------------------------------------------------- the serial case

  /** Read and committed with nothing in between, an update is the one atomic step of the ledger. */
  lemma SerialUpdate(s: State, id: nat, request: Request)
    requires id !in s.sessions
    ensures Act(Act(Act(s, Open(id, request)), Look(id)), Save(id)) ==
            s.(ledger := Updated(s.ledger, request))
  {
    var looked := Act(Act(s, Open(id, request)), Look(id));
    assert looked.sessions - {id} == s.sessions;
    if Acceptable(request, s.ledger.pageCount) {
      MergedUnraced(RowOf(s.ledger), NewRow(RowOf(s.ledger), request, s.ledger.pageCount));
    }
  }

  /** So is a page count, and a mark that is read and advanced with nothing in between. */
  lemma SerialMark(s: State, id: nat, page: int)
    requires id !in s.sessions && s.ledger.row != None
    ensures var row := s.ledger.row.value;
            Act(Act(s, LookMark(id, page)), SaveMark(id)) ==
            s.(ledger := s.ledger.(row :=
              Some(row.(lastSummarized := if row.lastSummarized < page then page else row.lastSummarized))))
    ensures forall pages: nat :: Act(s, Count(pages)) == s.(ledger := Apply(s.ledger, CountPages(pages)))
  {
    var looked := Act(s, LookMark(id, page));
    assert looked.sessions - {id} == s.sessions;
  }

  lemma MergedUnraced(seen: Row, changed: Row)
    requires changed.lastSummarized == seen.lastSummarized
    ensures Merged(seen, seen, changed) == changed
  {
  }

  // --------------------------------------------------- what a commit adds

  /** The page a commit saw and the page it leaves its session's row at. */
  function SawPage(session: Session): int
    requires session.Looked?
  {
    SeenRow(session.seen).currentPage
  }

  function NamesPage(session: Session): int
    requires session.Looked?
  {
    NewRow(SeenRow(session.seen), session.request, session.pageCount).currentPage
  }

  /** The action is a commit that takes effect. */
  predicate Saves(s: State, action: Action) {
    action.Save? && Enabled(s, action) && Commits(s.ledger, s.sessions[action.id])
  }

  /** What an action adds to the trail. */
  function AddedBy(s: State, action: Action): seq<ReadingEvent> {
    if Saves(s, action) then
      var session := s.sessions[action.id];
      var seen := SeenRow(session.seen);
      Emitted(seen, NewRow(seen, session.request, session.pageCount), session.request.day)
    else []
  }

  lemma ActAdds(s: State, action: Action)
    ensures Act(s, action).ledger.trail == s.ledger.trail + AddedBy(s, action)
    ensures PageOf(Act(s, action)) ==
            if Saves(s, action) && NamesPage(s.sessions[action.id]) != SawPage(s.sessions[action.id])
            then NamesPage(s.sessions[action.id]) else PageOf(s)
  {
    hide ResolveStatus, Emitted;
  }

  /** The pages an action's events count. */
  function Counted(s: State, action: Action): nat {
    if Saves(s, action) then Max(0, NamesPage(s.sessions[action.id]) - SawPage(s.sessions[action.id])) else 0
  }

  lemma ActCounts(s: State, action: Action, p: int)
    ensures Gained(AddedBy(s, action)) == Counted(s, action)
    ensures Covered(AddedBy(s, action), p) <==>
            Saves(s, action) && SawPage(s.sessions[action.id]) < p <= NamesPage(s.sessions[action.id])
    ensures AnyAdvance(AddedBy(s, action)) <==> 0 < Counted(s, action)
    ensures 0 < Counted(s, action) ==> LastReached(AddedBy(s, action)) == NamesPage(s.sessions[action.id])
  {
    hide ResolveStatus, Covered, Gained, AnyAdvance, LastReached, Emitted, NewRow;
    if Saves(s, action) {
      var session := s.sessions[action.id];
      var seen := SeenRow(session.seen);
      EmittedMoves(seen, NewRow(seen, session.request, session.pageCount), session.request.day, p);
    } else {
      NoTrail();
    }
  }

  // ------------------------------------------------------------ conservation

  /** What an action counts above what it moves: pages counted twice are positive, pages not counted negative. */
  function Miscounted(s: State, action: Action): int {
    Counted(s, action) - Max(0, PageOf(Act(s, action)) - PageOf(s))
  }

  function MiscountedAlong(actions: seq<Action>): int {
    if actions == [] then 0
    else
      var front := actions[..|actions| - 1];
      MiscountedAlong(front) + Miscounted(Raced(front), actions[|actions| - 1])
  }

  /** The whole account of any interleaving: what the trail gained is the page, the way back, and the miscounts. */
  lemma {:induction false} TrailAccount(actions: seq<Action>)
    ensures Gained(Raced(actions).ledger.trail) ==
            PageOf(Raced(actions)) + MovedBack(actions) + MiscountedAlong(actions)
  {
    hide Act, Counted, Gained;
    if actions == [] {
      NoTrail();
    } else {
      var front, action := actions[..|actions| - 1], actions[|actions| - 1];
      var s := Raced(front);
      TrailAccount(front);
      ActGains(s, action);
    }
  }

  predicate Conserved(actions: seq<Action>) {
    Gained(Raced(actions).ledger.trail) == PageOf(Raced(actions)) + MovedBack(actions)
  }

  /** A commit that moves the page finds the page it read still there, or goes back from both. */
  predicate FindsItsPage(s: State, action: Action) {
    Saves(s, action) ==>
      var saw, names := SawPage(s.sessions[action.id]), NamesPage(s.sessions[action.id]);
      names != saw ==> PageOf(s) == saw || (names < saw && names <= PageOf(s))
  }

  lemma MiscountsUnlessFound(s: State, action: Action)
    ensures Miscounted(s, action) == 0 <==> FindsItsPage(s, action)
  {
    hide Act, NewRow;
    ActAdds(s, action);
  }

  lemma ConservedMeans(actions: seq<Action>)
    ensures Conserved(actions) <==> MiscountedAlong(actions) == 0
  {
    TrailAccount(actions);
  }

  predicate ConservedAlong(actions: seq<Action>) {
    forall k :: 0 <= k <= |actions| ==> Conserved(actions[..k])
  }

  predicate FoundAlong(actions: seq<Action>) {
    forall i :: 0 <= i < |actions| ==> FindsItsPage(Raced(actions[..i]), actions[i])
  }

  lemma AlongOneMore(actions: seq<Action>)
    requires actions != []
    ensures var n := |actions| - 1;
            (ConservedAlong(actions) <==> ConservedAlong(actions[..n]) && Conserved(actions)) &&
            (FoundAlong(actions) <==> FoundAlong(actions[..n]) && FindsItsPage(Raced(actions[..n]), actions[n]))
  {
    hide Conserved, FindsItsPage, Raced;
    var n := |actions| - 1;
    assert forall k :: 0 <= k <= n ==> actions[..n][..k] == actions[..k];
    assert actions[..|actions|] == actions;
  }

  /**
   Pages gained stay the current page plus everything moved back, all along an interleaving, exactly when every commit
   that moves the page finds the page it read still there or goes back from both.
   */
  lemma {:induction false} ConservedAlongIff(actions: seq<Action>)
    ensures ConservedAlong(actions) <==> FoundAlong(actions)
  {
    hide Miscounted, FindsItsPage, Conserved, ConservedAlong, FoundAlong, Raced;
    ConservedMeans(actions);
    if actions == [] {
      NothingYet();
    } else {
      var front := actions[..|actions| - 1];
      ConservedAlongIff(front);
      AlongOneMore(actions);
      MiscountsUnlessFound(Raced(front), actions[|actions| - 1]);
      ConservedMeans(front);
      if ConservedAlong(front) {
        AlongEnds(front);
      }
    }
  }

  lemma NothingYet()
    ensures ConservedAlong([]) && FoundAlong([])
  {
    ConservedMeans([]);
  }

  lemma AlongEnds(actions: seq<Action>)
    requires ConservedAlong(actions)
    ensures Conserved(actions)
  {
    assert actions[..|actions|] == actions;
  }

  // --------------------------------------------- what holds however they race

  /** No session saw a page above the highest, nor one below the first. */
  ghost predicate SeenWithin(actions: seq<Action>) {
    0 <= PageOf(Raced(actions)) <= HighestOf(actions) &&
    forall id :: id in Raced(actions).sessions && Raced(actions).sessions[id].Looked? ==>
      0 <= SawPage(Raced(actions).sessions[id]) <= HighestOf(actions)
  }

  lemma {:induction false} SeenStaysWithin(actions: seq<Action>)
    ensures SeenWithin(actions)
  {
    if actions != [] {
      hide ResolveStatus, Emitted;
      SeenStaysWithin(actions[..|actions| - 1]);
    }
  }

  /** However the sessions interleave, the advances cover exactly the pages up to the highest one reached. */
  lemma {:induction false} CoverageHolds(actions: seq<Action>, p: int)
    ensures Covered(Raced(actions).ledger.trail, p) <==> 0 < p <= HighestOf(actions)
  {
    hide Act, AddedBy, Covered, NewRow;
    if actions == [] {
      NoTrail();
    } else {
      var front, action := actions[..|actions| - 1], actions[|actions| - 1];
      var s := Raced(front);
      CoverageHolds(front, p);
      SeenStaysWithin(front);
      ActAdds(s, action);
      ActCounts(s, action, p);
      CoverGrows(s.ledger.trail, AddedBy(s, action), p);
    }
  }

  /** And a document is completed exactly when the last status event committed is a completion. */
  lemma {:induction false} CompletionHolds(actions: seq<Action>)
    ensures RowOf(Raced(actions).ledger).status == Completed <==>
            LastStatusEvent(Raced(actions).ledger.trail) == Some(Completion)
  {
    hide Act, LastStatusEvent;
    if actions == [] {
      NoTrail();
    } else {
      var front, action := actions[..|actions| - 1], actions[|actions| - 1];
      CompletionHolds(front);
      ActKeepsCompletion(Raced(front), action);
    }
  }

  lemma ActKeepsCompletion(s: State, action: Action)
    requires RowOf(s.ledger).status == Completed <==> LastStatusEvent(s.ledger.trail) == Some(Completion)
    ensures var after := Act(s, action).ledger;
            RowOf(after).status == Completed <==> LastStatusEvent(after.trail) == Some(Completion)
  {
    hide LastStatusEvent, Emitted, ResolveStatus;
    if Saves(s, action) {
      var session := s.sessions[action.id];
      var seen := SeenRow(session.seen);
      EmittedStatus(s.ledger.trail, seen, NewRow(seen, session.request, session.pageCount), session.request.day);
    }
  }

  // ------------------------------------------------------------------ races

  lemma OneMore(actions: seq<Action>, action: Action)
    ensures var all, s := actions + [action], Raced(actions);
            Raced(all) == Act(s, action) &&
            MovedBack(all) == MovedBack(actions) + Max(0, PageOf(s) - PageOf(Act(s, action))) &&
            Gained(Raced(all).ledger.trail) == Gained(Raced(actions).ledger.trail) + Counted(s, action)
  {
    hide Act, Counted, Gained, PageOf;
    assert (actions + [action])[..|actions|] == actions;
    ActGains(Raced(actions), action);
  }

  lemma ActGains(s: State, action: Action)
    ensures Gained(Act(s, action).ledger.trail) == Gained(s.ledger.trail) + Counted(s, action)
  {
    hide Act, AddedBy, Counted, Gained, PageOf, LastReached, AnyAdvance, Covered, Saves, NamesPage, SawPage;
    ActAdds(s, action);
    ActCounts(s, action, 0);
    GainGrows(s.ledger.trail, AddedBy(s, action));
  }

  function ToPage(page: int): Request {
    Request(Some(page), None, None, 0)
  }

  function RowAt(page: int, status: Status): Row {
    Row(page, 0, status, None)
  }

  /** An update up to its commit. */
  lemma Begun(actions: seq<Action>, id: nat, request: Request) returns (actions': seq<Action>)
    requires id !in Raced(actions).sessions
    ensures var s := Raced(actions);
            Raced(actions') == s.(sessions := s.sessions[id := Looked(request, s.ledger.pageCount, s.ledger.row)])
    ensures MovedBack(actions') == MovedBack(actions)
    ensures Gained(Raced(actions').ledger.trail) == Gained(Raced(actions).ledger.trail)
  {
    hide MovedBack, Gained, Raced;
    OneMore(actions, Open(id, request));
    OneMore(actions + [Open(id, request)], Look(id));
    actions' := actions + [Open(id, request)] + [Look(id)];
  }

  /** Two updates, to 5 and to 8, have both read a row at page 0. */
  lemma BothAtTheStart() returns (actions: seq<Action>)
    ensures var looked := map[0 := Looked(ToPage(5), None, Some(FRESH)), 1 := Looked(ToPage(8), None, Some(FRESH))];
            Raced(actions) == State(Reading.EMPTY.(row := Some(FRESH)), looked)
    ensures MovedBack(actions) == 0 == Gained(Raced(actions).ledger.trail)
  {
    hide MovedBack, Gained, Raced;
    Unmoved();
    actions := Begun([], 0, ToPage(0));
    OneMore(actions, Save(0));
    actions := Begun(actions + [Save(0)], 0, ToPage(5));
    actions := Begun(actions, 1, ToPage(8));
  }

  lemma Unmoved()
    ensures Raced([]) == START && MovedBack([]) == 0 == Gained([])
  {
  }

  /** Both sessions read page 0, one commits 5 and the other 8: eight pages read, thirteen counted, none moved back. */
  lemma LostUpdate() returns (actions: seq<Action>)
    ensures PageOf(Raced(actions)) == 8 && MovedBack(actions) == 0 && Gained(Raced(actions).ledger.trail) == 13
    ensures !FoundAlong(actions)
  {
    hide MovedBack, Gained, Raced, FoundAlong;
    actions := BothAtTheStart();
    OneMore(actions, Save(0));
    OneMore(actions + [Save(0)], Save(1));
    actions := actions + [Save(0)] + [Save(1)];
    ConservedAlongIff(actions);
    if ConservedAlong(actions) {
      AlongEnds(actions);
    }
  }

  /** A commit goes back from the page it read, and lands past the last advance. */
  predicate LandsPastLastAdvance(s: State, action: Action) {
    Saves(s, action) &&
    LastReached(s.ledger.trail) < NamesPage(s.sessions[action.id]) < SawPage(s.sessions[action.id])
  }

  /** The reader gets past the last advance at exactly such commits; serial ones are none. */
  lemma PastLastAdvanceIff(s: State, action: Action)
    requires PageOf(s) <= LastReached(s.ledger.trail)
    ensures var after := Act(s, action);
            PageOf(after) <= LastReached(after.ledger.trail) <==> !LandsPastLastAdvance(s, action)
    ensures Saves(s, action) && SawPage(s.sessions[action.id]) == PageOf(s) ==> !LandsPastLastAdvance(s, action)
  {
    hide Act, AddedBy, LastReached, NewRow, Gained, Covered, AnyAdvance;
    ActAdds(s, action);
    ActCounts(s, action, 0);
    ReachGrows(s.ledger.trail, AddedBy(s, action));
  }

  /** One session wants page 6 and saw page 8; meanwhile the reader is back at 0 and then on page 3. */
  lemma BackAndOn() returns (actions: seq<Action>)
    ensures var s := Raced(actions);
            PageOf(s) == 3 && LastReached(s.ledger.trail) == 3 && s.ledger.row.Some? && 1 in s.sessions &&
            s.sessions[1] == Looked(ToPage(6), None, Some(Row(8, 0, InProgress, None)))
  {
    hide MovedBack, Gained, Raced, LastReached;
    actions := BothAtTheStart();
    OneMore(actions, Save(1));
    actions := Begun(actions + [Save(1)], 1, ToPage(6));
    actions := Begun(actions, 2, ToPage(0));
    OneMore(actions, Save(2));
    actions := Begun(actions + [Save(2)], 2, ToPage(3));
    OneMore(actions, Save(2));
    ReachOneMore(Raced(actions), Save(2));
    actions := actions + [Save(2)];
  }

  lemma ReachOneMore(s: State, action: Action)
    ensures LastReached(Act(s, action).ledger.trail) ==
            if 0 < Counted(s, action) then NamesPage(s.sessions[action.id]) else LastReached(s.ledger.trail)
  {
    hide Act, AddedBy, Counted, Gained, LastReached, AnyAdvance, Covered;
    ActAdds(s, action);
    ActCounts(s, action, 0);
    ReachGrows(s.ledger.trail, AddedBy(s, action));
  }

  /** From page 8 one session wants page 6, while the reader goes back to 0 and on to 3: page 6, last advance to 3. */
  lemma PastLastAdvance() returns (actions: seq<Action>)
    ensures PageOf(Raced(actions)) == 6 && LastReached(Raced(actions).ledger.trail) == 3
  {
    hide MovedBack, Gained, Raced, LastReached;
    actions := BackAndOn();
    OneMore(actions, Save(1));
    ReachOneMore(Raced(actions), Save(1));
    actions := actions + [Save(1)];
  }

  // ------------------------------------------------------- the summary mark

  function MarkOf(s: State): int {
    RowOf(s.ledger).lastSummarized
  }

  /** An advance read a mark below its page and finds one above it. */
  predicate FindsMarkPassed(s: State, action: Action) {
    action.SaveMark? && Enabled(s, action) && s.ledger.row.Some? &&
    s.sessions[action.id].seenMark < s.sessions[action.id].page < MarkOf(s)
  }

  /** The mark goes back at exactly the advances that find it passed already. */
  lemma MarkGoesBackIff(s: State, action: Action)
    ensures MarkOf(Act(s, action)) < MarkOf(s) <==> FindsMarkPassed(s, action)
  {
  }

  /** Two summaries end at once: the mark was at 8 and goes back to 5, so pages 6 to 8 are proposed again. */
  lemma MarkGoesBack() returns (actions: seq<Action>)
    ensures var n := |actions| - 1;
            0 <= n && MarkOf(Raced(actions[..n])) == 8 && MarkOf(Raced(actions)) == 5 && PageOf(Raced(actions)) == 8
  {
    hide MovedBack, Gained, Raced;
    actions := BothAtTheStart();
    OneMore(actions, Save(1));
    OneMore(actions + [Save(1)], LookMark(2, 5));
    actions := actions + [Save(1)] + [LookMark(2, 5)];
    OneMore(actions, LookMark(3, 8));
    OneMore(actions + [LookMark(3, 8)], SaveMark(3));
    actions := actions + [LookMark(3, 8)] + [SaveMark(3)];
    OneMore(actions, SaveMark(2));
    assert (actions + [SaveMark(2)])[..|actions|] == actions;
    actions := actions + [SaveMark(2)];
  }
}
