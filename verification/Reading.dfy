/** One reader's state for one document: the position, its status, the event trail, and the saved summaries. */
module Reading {
  import opened AgentGraph
  import opened Shared
  import opened ToolReplay

  datatype Status = NotStarted | InProgress | Completed | Cancelled

  datatype EventKind = PositionAdvanced | StatusChanged | Completion | Session

  datatype ReadingEvent = ReadingEvent(kind: EventKind, fromPage: Option<int>, toPage: Option<int>, day: int)

  datatype Row = Row(currentPage: int, lastSummarized: int, status: Status, spoilerSafe: Option<bool>)

  /** A row starts before the first page. */
  const FRESH := Row(0, 0, NotStarted, None)

  /** Pages `first` to `last`. */
  datatype Range = Range(first: int, last: int)

  /** The document's page count, unknown until its ingestion ends, and the reader's row, event trail and summaries. */
  datatype Ledger = Ledger(pageCount: Option<nat>, row: Option<Row>, trail: seq<ReadingEvent>, summaries: seq<Range>)

  const EMPTY := Ledger(None, None, [], [])

  /** What a progress update supplies; an omitted field is left alone. */
  datatype Request = Request(page: Option<int>, status: Option<Status>, spoilerSafe: Option<Option<bool>>, day: int)

  datatype Step =
    | CountPages(pages: nat)
    | Update(request: Request)
    | Confirm(answer: Answer, chunksFound: bool, advances: bool)

  // -------------------------------------------------------- position updates

  predicate PageAllowed(page: int, pageCount: Option<nat>) {
    0 <= page && (pageCount.Some? ==> page <= pageCount.value)
  }

  predicate Acceptable(request: Request, pageCount: Option<nat>) {
    request.page.Some? ==> PageAllowed(request.page.value, pageCount)
  }

  function ResolveStatus(explicit: Option<Status>, page: int, previous: Status, pageCount: Option<nat>): Status {
    if explicit.Some? then explicit.value
    else if pageCount.Some? && pageCount.value <= page && 0 < page then Completed
    else if 0 < page && previous == NotStarted then InProgress
    else previous
  }

  function RowOf(ledger: Ledger): Row {
    if ledger.row.Some? then ledger.row.value else FRESH
  }

  function NewRow(row: Row, request: Request, pageCount: Option<nat>): Row {
    var page := if request.page.Some? then request.page.value else row.currentPage;
    var status :=
      if request.page.Some? then ResolveStatus(request.status, page, row.status, pageCount)
      else if request.status.Some? then request.status.value
      else row.status;
    var spoilerSafe := if request.spoilerSafe.Some? then request.spoilerSafe.value else row.spoilerSafe;
    Row(page, row.lastSummarized, status, spoilerSafe)
  }

  /** An advance for a forward move, then a completion or a status change for a change of status. */
  function Emitted(before: Row, after: Row, day: int): seq<ReadingEvent> {
    (if before.currentPage < after.currentPage
     then [ReadingEvent(PositionAdvanced, Some(before.currentPage), Some(after.currentPage), day)] else []) +
    (if before.status != after.status
     then
       var kind := if after.status == Completed then Completion else StatusChanged;
       [ReadingEvent(kind, None, Some(after.currentPage), day)]
     else [])
  }

  function Updated(ledger: Ledger, request: Request): Ledger {
    if !Acceptable(request, ledger.pageCount) then ledger
    else
      var row := NewRow(RowOf(ledger), request, ledger.pageCount);
      ledger.(row := Some(row), trail := ledger.trail + Emitted(RowOf(ledger), row, request.day))
  }

  // ----------------------------------------------------------------- summaries

  function Max(a: int, b: int): (m: int)
    ensures a <= m && b <= m && (m == a || m == b)
  {
    if a < b then b else a
  }

  /** The range a confirmation saves, if it saves one. */
  function SavedRange(ledger: Ledger, answer: Answer, chunksFound: bool): Option<Range> {
    if ledger.row.None? || ledger.row.value.currentPage <= ledger.row.value.lastSummarized ||
       answer.action == Deny || !chunksFound
    then None
    else
      var row := ledger.row.value;
      var (first, last) := SummaryRange(Position(row.currentPage, row.lastSummarized, row.spoilerSafe), answer);
      if first < 1 || last < first then None else Some(Range(first, last))
  }

  /** Saving is two commits: the summary's, then the mark's, which may not come. */
  function Confirmed(ledger: Ledger, answer: Answer, chunksFound: bool, advances: bool): Ledger {
    var range := SavedRange(ledger, answer, chunksFound);
    if range.None? then ledger
    else
      var row := ledger.row.value;
      var mark := if advances then Max(row.lastSummarized, range.value.last) else row.lastSummarized;
      ledger.(row := Some(row.(lastSummarized := mark)), summaries := ledger.summaries + [range.value])
  }

  function Apply(ledger: Ledger, step: Step): Ledger {
    match step
    case CountPages(pages) => ledger.(pageCount := Some(pages))
    case Update(request) => Updated(ledger, request)
    case Confirm(answer, chunksFound, advances) => Confirmed(ledger, answer, chunksFound, advances)
  }

  /** The state after any run of updates and confirmations. */
  function After(steps: seq<Step>): Ledger {
    if steps == [] then EMPTY else Apply(After(steps[..|steps| - 1]), steps[|steps| - 1])
  }

  // ------------------------------------------------------------ the services

  /** The stored rows of one reader and one document. */
  class Store {
    var pageCount: Option<nat>
    var tracked: bool
    var currentPage: int
    var lastSummarized: int
    var status: Status
    var spoilerSafe: Option<bool>
    var trail: seq<ReadingEvent>
    var summaries: seq<Range>

    ghost function Contents(): Ledger
      reads this
    {
      var row := if tracked then Some(Row(currentPage, lastSummarized, status, spoilerSafe)) else None;
      Ledger(pageCount, row, trail, summaries)
    }

    constructor ()
      ensures Contents() == EMPTY
    {
      pageCount := None;
      tracked, currentPage, lastSummarized, status, spoilerSafe := false, 0, 0, NotStarted, None;
      trail, summaries := [], [];
    }

    /** The end of the document's ingestion, in whatever state reading is. */
    method RecordPageCount(pages: nat)
      modifies `pageCount
      ensures Contents() == Apply(old(Contents()), CountPages(pages))
      ensures Contents() == old(Contents()).(pageCount := Some(pages))
    {
      pageCount := Some(pages);
    }

    method GetOrCreate()
      modifies this
      ensures tracked && Contents() == old(Contents()).(row := Some(RowOf(old(Contents()))))
    {
      if !tracked {
        tracked, currentPage, lastSummarized, status, spoilerSafe := true, 0, 0, NotStarted, None;
      }
    }

    method Emit(previousPage: int, previousStatus: Status, day: int)
      modifies `trail
      ensures trail == old(trail) + Emitted(Row(previousPage, lastSummarized, previousStatus, spoilerSafe),
                                            Row(currentPage, lastSummarized, status, spoilerSafe), day)
    {
      if previousPage < currentPage {
        trail := trail + [ReadingEvent(PositionAdvanced, Some(previousPage), Some(currentPage), day)];
      }
      if status != previousStatus {
        var kind := if status == Completed then Completion else StatusChanged;
        trail := trail + [ReadingEvent(kind, None, Some(currentPage), day)];
      }
    }

    /** A refused page rolls the transaction back, so even a new row is not kept. */
    method UpdateProgress(request: Request) returns (accepted: bool)
      modifies this
      ensures !accepted <==>
              request.page.Some? &&
              (request.page.value < 0 || (old(pageCount).Some? && old(pageCount).value < request.page.value))
      ensures !accepted ==> Contents() == old(Contents())
      ensures accepted ==> tracked && pageCount == old(pageCount) && summaries == old(summaries)
      ensures accepted && request.page.Some? ==> currentPage == request.page.value
      ensures accepted && request.status.Some? ==> status == request.status.value
      ensures accepted && request.status.None? && request.page.Some? ==>
                pageCount.Some? && 0 < request.page.value == pageCount.value ==> status == Completed
      ensures Contents() == Updated(old(Contents()), request)
    {
      if request.page.Some? && !PageAllowed(request.page.value, pageCount) {
        return false;
      }
      GetOrCreate();
      var previousPage, previousStatus := currentPage, status;
      if request.page.Some? {
        currentPage := request.page.value;
        status := ResolveStatus(request.status, currentPage, previousStatus, pageCount);
      } else if request.status.Some? {
        status := request.status.value;
      }
      if request.spoilerSafe.Some? {
        spoilerSafe := request.spoilerSafe.value;
      }
      Emit(previousPage, previousStatus, request.day);
      return true;
    }

    method WriteSummary(first: int, last: int) returns (saved: bool)
      modifies `summaries
      ensures saved <==> 1 <= first <= last
      ensures summaries == if saved then old(summaries) + [Range(first, last)] else old(summaries)
    {
      if first < 1 || last < first {
        return false;
      }
      summaries := summaries + [Range(first, last)];
      return true;
    }

    method AdvanceSummarizedPage(page: int) returns (found: bool)
      modifies `lastSummarized
      ensures found == tracked
      ensures lastSummarized == if found then Max(old(lastSummarized), page) else old(lastSummarized)
    {
      if tracked {
        lastSummarized := if lastSummarized < page then page else lastSummarized;
      }
      return tracked;
    }

    /** Save a summary of the confirmed range; the process may stop before the mark's commit. */
    method PersistMemory(answer: Answer, chunksFound: bool, advances: bool)
      modifies `summaries, `lastSummarized
      ensures Contents() == Confirmed(old(Contents()), answer, chunksFound, advances)
    {
      if !tracked || currentPage <= lastSummarized || answer.action == Deny {
        return;
      }
      var (first, last) := SummaryRange(Position(currentPage, lastSummarized, spoilerSafe), answer);
      if !chunksFound {
        return;
      }
      var saved := WriteSummary(first, last);
      if saved && advances {
        var _ := AdvanceSummarizedPage(last);
      }
    }
  }
}
