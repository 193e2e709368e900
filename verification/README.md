# A verified model of the reading companion

The repository is a reading companion: documents are uploaded, split into page-tagged chunks, indexed in a table and in
a vector store, read up to a page, searched inside the pages already read, summarised as reading goes on, and discussed
with an agent whose turns can pause for the reader. This project models that path and proves what it promises, on all
inputs and over all runs.

`dafny verify dfyconfig.toml` checks everything. The modules follow the program:

- `Text`, `Sequences`, `Shared`: strings as Python and JavaScript handle them, sequence facts, statuses and settings.
- `Chunking` (loops against `Chunks`), `ChunkLaws` (reconstruction, overlap), `PageRange` (page tags, range queries).
- `Ingestion` is the protocol between the document table, the chunk table, the vector store, the outbox and the broker,
  as a transition system; `IngestionSafety` proves the index agrees with the table over every run with one attempt per
  document at a time, `OverlapLaws` says exactly when it does over all others; `OutboxLaws` covers the relay and
  `FailureLaws` the failure handler; `StepLaws` says what each step does to statuses, outbox and queue. `Pipeline` and
  `Tasks` are the worker's imperative code over a class `Stores`, with other sessions let in at its awaits, proved to
  take the protocol's steps among theirs; `Beat` is the relay tick and the sweep in the same form.
- `Uploads`: concurrent uploads and retries over the unique constraint, with every await a separate step.
  `UploadService` is the two calls as code over a class `Library`, with other sessions let in at every await, and
  `UploadDeletion` says what deletes do to them.
- `Retrieval`, `SearchLaws`, `ReadRange`: the read bound, ranking, de-duplication and hydration; what a whole search
  answers; and the end-to-end page guarantee.
- `ToolReplay`, `ApprovalLaws`: suspended tool calls and the replay that answers them. `AgentGraph`, `NodeLaws`,
  `TurnLaws`, `AckLaws`, `SpoilerLaws`: the turn graph, node by node and over many turns. `EventStream`, `StreamLaws`:
  the streamed form of a turn.
- `Reading` (a class `Store` against `After`), `ReadingLaws`: position, event trail and summaries, one update at a time;
  `ReadingRaces`: updates whose reads and commits interleave. `Analytics`: pages by day, pace and streaks from that
  trail.
- `Sse`, `AttachmentNote`: two texts printed in Python and parsed in TypeScript.
- `RateLimit`: the fixed-window limiter over a shared Redis.

## How to read it

A function such as `Ingestion.Apply` or `Reading.After` gives the meaning; methods are proved to compute it; lemmas say
what it guarantees. `Ingestion.Run` ranges over crashes at any await, redelivery, sweeps, retries and deletes. A
`World` or an `Observation` holds what a judge, a model or a store answers just then, so a theorem for all of them holds
whatever they do.

## Where the code does less than its words

- Approvals are matched to interrupts by position. `summarize` without pages and `recommend` without a query pause
  depending on what the stores hold, so after a store change a replay can give a tool the answer meant for another, and
  a denied web search can run (`ApprovalLaws.DeniedSearchRuns`). `ApprovalLaws.ApprovalsTheirOwnIffStable` says exactly
  for which batches of calls this cannot happen; the condition can be read off the calls.
- `_with_summary_save_ack` speaks of this turn, but nothing resets the acknowledgement: it is on a reply exactly when
  any turn so far saved (`TurnLaws.AckIffEverSaved`), so every later turn that asks for no tool repeats it without
  saving anything (`AckLaws.AckRepeats`, with such conversations in `AckLaws.SavedConversation`).
- The streaming docstring promises tools, then tokens. `EventStream.ToolsFirstIff`: that holds exactly when the model
  says nothing while it asks for tools, and `EventStream.TalkingTurn` is a turn in which it does. It also promises a
  blocked event alone; two statuses always precede it (`EventStream.RefusedStream`).
- The limiter's comment says up to twice the limit; the sharp bound is one less (`RateLimit.BurstBound`,
  `RateLimit.BoundIsMet`). A Redis error is meant to let requests through, but one on EXPIRE makes the key stay:
  `RateLimit.LockOut` reaches a full key by such calls from an empty Redis, and `RateLimit.LockedOutIff` says exactly
  when a key is never open again.
- The sweep calls a redelivery harmless while the document is still in flight
  (services/ingestion/ingestion/sweep.py:15-17). It is not: with two overlapping attempts the index can lose agreement
  (`IngestionSafety.OverlapBreaksAgreement`). `OverlapLaws.AgreedIff` says exactly when it agrees, over every run: the
  attempt that committed the rows last is the only one to have upserted points since they were last cleared.
- Two updates of one reader are read and committed with no lock and no version: one can count pages the other counted
  too (`ReadingRaces.LostUpdate`). Pages gained stay the page plus the way back exactly when every commit that moves the
  page finds the page it read, or goes back from both (`ReadingRaces.ConservedAlongIff`); otherwise they are off by the
  miscounts (`ReadingRaces.TrailAccount`). Which pages were read and whether a document is completed stay right however
  sessions race (`ReadingRaces.CoverageHolds`, `ReadingRaces.CompletionHolds`). The mark said only to move forward can
  go back (`ReadingRaces.MarkGoesBack`, and exactly when in `ReadingRaces.MarkGoesBackIff`).
- Declining a spoiler warning is said to substitute a safe answer. The resumed node asks its judge again, and if that
  finds no risk now, the declined text is shown (`SpoilerLaws.DeclinedIsShown`);
  `SpoilerLaws.DeclinedStaysWithheldIff` says exactly when it stays withheld.
- `fail_document` does not look at the status: an indexed document is marked failed exactly when a message for it raises
  on its last try (`FailureLaws.IndexedFailsIff`), and `FailureLaws.IndexedMarkedFailed` is a run in which redelivery
  does that. Agreement is promised while the status is indexed.
- `fail_document` is best effort: a message settles its document exactly unless the handler was reached and raised
  (`Tasks.TaskSettlesIff`). An outage longer than the retries leaves the document waiting without a message
  (`Tasks.UploadStranded`) until a sweep (`Tasks.SweepRecovers`).
- A document completes by position only if its page count was known when the reader reached it. The count comes with
  ingestion, after which nothing looks back (`ReadingLaws.LateCountIsNotCompleted`); `ReadingLaws.StatusIsEarnedIff`
  says exactly when the status is the earned one.
- A delete between a lost upload race and its lookup makes the branch reachable that the source calls unreachable
  (`UploadDeletion.DeletionLeavesNoWinner`), and `UploadDeletion.NoWinnerIff` says exactly when. A delete can also drop
  the original another upload of the same content just stored (`UploadDeletion.DeletionLosesOriginal`).
- An edited start of the range (`ReadingLaws.EditedStartLeavesGap`), or a stop between the two commits of a save
  (`ReadingLaws.LostMarkRepeats`), breaks the tiling of summaries, and for saves one after another nothing else does
  (`ReadingLaws.SaveKeepsTilingIff`).
- A message the reader typed that ends like an attachment note is taken for one (`AttachmentNote.TypedNoteIsTaken`).

## Model

| member | source | states |
|---|---|---|
| `IngestionSafety.IndexAlwaysAgrees` | services/ingestion/ingestion/pipeline.py:58-161 | After every run with one attempt per document at a time, whatever crashed, was redelivered, or was retried by its reader at any moment: an indexed document's chunk rows and vector points were all written by one attempt, unless its delete began |
| `IngestionSafety.AgreementMeans` | services/ingestion/ingestion/pipeline.py:105-161 | What that agreement gives a reader of the stores: equal id sets, all of one attempt, and behind each id its own row's vector and, field by field, its owner, document, place, pages, digest and title |
| `IngestionSafety.AgreedHolds` | services/ingestion/ingestion/pipeline.py:105-161 | In agreement a readable document is held chunk by chunk: for some attempt, under the attempt's id for chunk i stand that chunk's row and a point with its text's embedding, its ordinal, page tags, digest and the title, and nothing else of the document is held; an unreadable one holds nothing |
| `IngestionSafety.RunKeeps` | services/ingestion/ingestion/pipeline.py:44-161 | The invariant behind it survives every valid exclusive run from any state that has it |
| `IngestionSafety.StepKeeps` | services/ingestion/ingestion/pipeline.py:44-187 | Every protocol step, failures and deletes included, keeps the invariant when it respects one attempt per document |
| `IngestionSafety.RetryKeeps` | services/api/api/services/ingestion_service.py:169-180 | A reader's retry keeps it wherever its write lands, on a claimed or indexed document too |
| `IngestionSafety.DeleteVectorsKeeps` | services/api/api/services/document_service.py:46-48 | Clearing a document's vectors, the first step of a delete, keeps agreement for every document whose delete did not begin |
| `IngestionSafety.DeleteRowKeeps` | services/api/api/services/document_service.py:50-51 | So does removing its row and, by cascade, its chunk rows |
| `IngestionSafety.OverlapBreaksAgreement` | libs/shared/shared/core/config.py:114-121 | Without that rule it fails: for any chunkable document a concrete run ends indexed, with rows and no points |
| `OverlapLaws.AgreedIff` | services/ingestion/ingestion/sweep.py:14-17 | Over every run, overlapping attempts and begun deletes included: rows and points of a document agree if and only if it has no chunks, or the attempt that committed its rows last is the only one that upserted its points since any clear, undo or delete |
| `OverlapLaws.IndexAgreesIff` | services/ingestion/ingestion/pipeline.py:105-161 | So the index agrees on every indexed undeleted document in exactly the runs where one attempt answers for both stores of each |
| `OverlapLaws.RunKept` | services/ingestion/ingestion/pipeline.py:44-161 | Over every run, from any state of which the account is right, each store holds of a document exactly what the account of its writes says |
| `FailureLaws.IndexedFailsIff` | services/ingestion/ingestion/pipeline.py:168-187 | A step marks an indexed document failed if and only if a message for it and its owner raises with no retry left |
| `FailureLaws.ReachableIndexedFailsIff` | services/ingestion/ingestion/tasks.py:56-97 | The same after every run with one attempt per document at a time |
| `FailureLaws.IndexedMarkedFailed` | services/ingestion/ingestion/tasks.py:56-97 | For every readable original an exclusive run indexes it, and then failing redeliveries alone mark it failed |
| `StepLaws.DocumentAfter` | services/ingestion/ingestion/pipeline.py:58-187 | A document's status, and nothing else of it, moves at exactly these steps: processing when a message for it is taken up unindexed, indexed at its attempt's commit, failed at a parse error or an exhausted retry, pending at a reader's retry; only its own delete removes it |
| `StepLaws.UploadAfter` | services/api/api/services/ingestion_service.py:100-127 | A new document is pending, its uploader's, and comes with its upload event |
| `StepLaws.ClaimAfter` | services/ingestion/ingestion/pipeline.py:58-72 | Taking up a message starts an attempt with the document's own bytes, under a fresh number, exactly when it claims |
| `StepLaws.OutboxAfter` | services/ingestion/ingestion/pipeline.py:150-160 | Events are added by a reader's retry and by a completed attempt, one each, and by no other step but an upload |
| `StepLaws.RelayStamps` | services/ingestion/ingestion/outbox_relay.py:39-49 | A relay stamps its batch and leaves kind, document, owner and every other event as they are |
| `StepLaws.RelayQueues` | services/ingestion/ingestion/outbox_relay.py:39-49 | A relay, or its part before a crash, adds one fresh message for every upload event it dispatched and no other message |
| `StepLaws.SweepQueues` | services/ingestion/ingestion/sweep.py:70-88 | A sweep adds one fresh message for every swept document's owner and no other |
| `StepLaws.QueueAfter` | services/ingestion/ingestion/tasks.py:76-97 | Of the other steps, a delivery or its failure takes one copy of its message, a crash puts it back, and a failure with retries left puts back the next try |
| `StepLaws.NoRowLeft` | libs/shared/shared/models/document.py:94-110 | After the delete of a document's row none of its chunk rows is left, and every other one is untouched |
| `StepLaws.NoPointLeft` | services/api/api/services/document_service.py:48-48 | A delete's first step leaves no point of the document's owner for it, and every other one untouched |
| `Pipeline.BuildChunkRows` | services/ingestion/ingestion/pipeline.py:190-217 | One row per chunk in order, each with its own fresh id, owner and document |
| `Pipeline.EmbedInBatches` | libs/shared/shared/providers/embeddings.py:72-81 | For any positive batch size the slices together embed every text once, in order |
| `Pipeline.Stores.TakeUp` | services/ingestion/ingestion/pipeline.py:58-72 | The claim: nothing changes when it raises, else it is exactly the protocol's delivery step, and skips a document that is gone or indexed |
| `Pipeline.Stores.Prepare` | services/ingestion/ingestion/pipeline.py:74-103 | Fetch, parse, chunk and embed touch no store; which fault ends it how, and that ids, rows and vectors line up with the chunks |
| `Pipeline.Stores.ClearIndex` | services/ingestion/ingestion/pipeline.py:111-114 | Removes exactly the owner's points of this document, or nothing when a call raises |
| `Pipeline.Stores.Upsert` | libs/shared/shared/vectorstore/chunks.py:119-128 | Adds exactly one point per row under the row's id: that position's vector, and the row's own owner, document, ordinal, pages and digest, and the title; all other points stay |
| `Pipeline.Stores.Persist` | services/ingestion/ingestion/pipeline.py:128-161 | The terminal transaction is all or nothing: rows replaced, status indexed and event added together, or nothing changed; on a document that is gone it raises if there are rows and else undoes the vectors |
| `Pipeline.Stores.UndoPoints` | services/ingestion/ingestion/pipeline.py:139-143 | The deleted document's points are removed and the run stops, or the call raised and nothing changed |
| `Pipeline.Stores.Pause` | services/ingestion/ingestion/pipeline.py:74-128 | Whatever other sessions do at an await is a protocol run that leaves this attempt where it is, exclusive if they take up no busy document |
| `Pipeline.Stores.PauseUnclaimed` | services/ingestion/ingestion/tasks.py:89-97 | The same while a delivery that claimed nothing waits for its failure policy: its message stays, and its document stays idle if others keep the rule |
| `Pipeline.Stores.RunIngestion` | services/ingestion/ingestion/pipeline.py:44-165 | For any raising point and anything other sessions do at the awaits: the four phases are a protocol run among theirs, exclusive if the document was idle and they keep the rule, and left alone exactly the steps listed for that point |
| `Pipeline.Stores.RunClaimed` | services/ingestion/ingestion/pipeline.py:74-161 | The same for phases 2 to 4 of a claimed document, and what is left of the attempt by how the run ended |
| `Pipeline.Stores.WriteClaimed` | services/ingestion/ingestion/pipeline.py:105-161 | The same for phases 3 and 4, which complete, abort or undo, and which of clear, upsert and commit took place when left alone |
| `Pipeline.Stores.PauseAndClear` | services/ingestion/ingestion/pipeline.py:111-114 | An await and then the clear: one more step of the run, or none when the call raises |
| `Pipeline.Stores.PauseAndUpsert` | services/ingestion/ingestion/pipeline.py:115-126 | An await and then the upsert, likewise |
| `Pipeline.Stores.PauseAndPersist` | services/ingestion/ingestion/pipeline.py:128-161 | An await and then the terminal transaction: completed on a document that is there, undone or aborted on one that is gone |
| `Tasks.FailDocument` | services/ingestion/ingestion/pipeline.py:168-187 | Marks the owner's document failed if it exists, whatever its status, and changes nothing else; or raises and changes nothing |
| `Tasks.RetryOrFail` | services/ingestion/ingestion/tasks.py:56-97 | Asks for a retry exactly while the budget lasts, else the hook fails the document unless it raises too |
| `Tasks.CloseRun` | services/ingestion/ingestion/tasks.py:83-97 | A parse error fails the document at once, with the hook as a second chance; any other error goes to the retry policy; success changes nothing more |
| `Tasks.CloseUnclaimed` | services/ingestion/ingestion/tasks.py:89-97 | A delivery that raised before its claim ends, whatever other sessions do first, with the protocol's failure step or, when the hook raises too, with its message lost |
| `Tasks.IngestDocument` | services/ingestion/ingestion/tasks.py:76-97 | The Celery body is a protocol run among whatever other sessions do, at the run's awaits and before the failure handler's or the retry's own commit; a retry asked for is in the queue; left alone, its whole effect on every store and the queue for any fault of the run and of the failure handler, and when it asks for a retry |
| `Tasks.ProcessMessage` | services/ingestion/ingestion/tasks.py:76-97 | A message from first delivery to last: final state, attempts within max_retries + 1, and a total backoff of two to the retries made, less one second |
| `Tasks.DeliveryLeads` | services/ingestion/ingestion/pipeline.py:44-165 | One delivery, for any fault, is a run of the protocol and is exclusive when the document was not busy |
| `Tasks.StepAdvances` | services/ingestion/ingestion/pipeline.py:105-161 | Each step of a full attempt is enabled after the ones before it and adds exactly its own effect |
| `Tasks.UninterruptedAttempt` | services/ingestion/ingestion/pipeline.py:84-161 | From whatever failed attempts left behind, one clean attempt ends indexed, with one row and one point for every chunk of the pages, each with that chunk's vector, ordinal, pages, digest and title, and its event in the outbox; every other document's rows and points are untouched |
| `Tasks.RedeliveryIsIdleIff` | services/ingestion/ingestion/pipeline.py:64-65 | A further delivery for an indexed document changes nothing but the queue if and only if its load does not raise, or the last try's hook raises too |
| `Tasks.TaskIsBounded` | services/ingestion/ingestion/tasks.py:33-35 | Attempts and total backoff of a message stay within its remaining budget, for any sequence of faults |
| `Tasks.WaitIsPower` | services/ingestion/ingestion/tasks.py:33-35 | The wait after n retries is two to the n seconds |
| `Tasks.WaitsAddUp` | services/ingestion/ingestion/tasks.py:33-35 | A message's waits, from any retry count on, add up to the difference of two powers of two, and stay within the budget |
| `Tasks.OutcomeIs` | services/ingestion/ingestion/pipeline.py:58-161 | How a delivery ends and how many of its steps it takes, for each point at which it may raise and whatever it finds |
| `Tasks.StrandsIff` | services/ingestion/ingestion/tasks.py:56-97 | What stranding is: every chance to mark the document failed raised, and it was left unfinished |
| `Tasks.TaskSettlesIff` | services/ingestion/ingestion/tasks.py:56-97 | A crash-free message is an exclusive protocol run, and ends with its document gone, indexed or failed if and only if its last delivery did not reach a failure handler that raised, or had claimed nothing of a document already settled |
| `Tasks.OutageStrands` | services/ingestion/ingestion/tasks.py:89-97 | An outage longer than the retries loses the message and leaves everything else as it was |
| `Tasks.UploadStranded` | services/ingestion/ingestion/sweep.py:51-67 | A reachable state of that kind: a pending upload, no message, no attempt |
| `Tasks.SweepRecovers` | services/ingestion/ingestion/sweep.py:51-88 | From every reachable state, sweeping an idle stuck document and working off one message settles it under the same condition; if not, the next sweep can take it; the index agrees either way |
| `Beat.FetchUnprocessed` | libs/shared/shared/repositories/outbox_repository.py:41-49 | Scanning in order of age yields the batch function, of which `OutboxLaws.BatchIsOldest` proves the meaning |
| `Beat.DispatchBatch` | services/ingestion/ingestion/outbox_relay.py:39-49 | Dispatches and stages stamps event by event; if the process ends early just the dispatched ones reached the queue |
| `Beat.RelayTick` | services/ingestion/ingestion/outbox_relay.py:52-67 | A tick is the protocol's relay step, or its crash step with nothing stamped when the process dies before the commit |
| `Beat.SweepTick` | services/ingestion/ingestion/sweep.py:70-88 | Adds one fresh message for exactly the pending or processing documents last touched longer ago than the threshold, no other message, and returns how many |
| `OutboxLaws.BatchIsOldest` | libs/shared/shared/repositories/outbox_repository.py:41-49 | The fetched batch is strictly ascending, unprocessed, within the limit, and leaves out only younger events, and those only when full |
| `OutboxLaws.TickDrains` | services/ingestion/ingestion/outbox_relay.py:39-49 | One tick takes exactly the batch size, or all there is, off the backlog |
| `OutboxLaws.DrainsInExactly` | services/ingestion/ingestion/outbox_relay.py:39-62 | With nothing arriving, the backlog is empty after k ticks if and only if k is at least n / batch rounded up |
| `OutboxLaws.DeliveredAtLeastOnce` | services/ingestion/ingestion/outbox_relay.py:45-60 | Over every run with crashes, a stamped event was dispatched at least once |
| `OutboxLaws.CrashRedelivers` | services/ingestion/ingestion/outbox_relay.py:45-60 | A crash before the commit stamps nothing, and the next tick dispatches the whole batch again |
| `Chunking.FlattenWords` | libs/shared/shared/ingestion_core/chunking.py:65-71 | The nested loops yield, page by page and under its number, exactly the maximal whitespace-free stretches of the page's text, in order, leaving out nothing but whitespace |
| `Chunking.ChunkDocument` | libs/shared/shared/ingestion_core/chunking.py:74-121 | The two size errors are told apart, and with valid sizes the windowed loop with its early exit yields the chunks of all windows, of which `ChunkLaws.WindowExistsIff` and `ChunkLaws.ChunkIs` say how many and what they are |
| `Chunking.StreamStands` | libs/shared/shared/ingestion_core/chunking.py:65-71 | The word stream from the page texts alone: each page's maximal whitespace-free stretches, at increasing disjoint places, with every other character whitespace |
| `Chunking.CountBounds` | libs/shared/shared/ingestion_core/chunking.py:102-120 | The number of windows is the least whose windows reach the last word: the last one covers it, the one before does not |
| `Chunking.WindowBounds` | libs/shared/shared/ingestion_core/chunking.py:102-120 | Every window but the last is full, and every later window holds a word past its overlap |
| `ChunkLaws.ChunksReconstruct` | libs/shared/shared/ingestion_core/chunking.py:96-121 | From the chunk texts alone, the first chunk's words and then every later chunk's past its overlap are the document's words in order |
| `ChunkLaws.ChunksHoldPages` | libs/shared/shared/ingestion_core/chunking.py:96-121 | Rebuilt from the chunk texts, the words are every page's maximal whitespace-free stretches, page by page, with nothing but whitespace left out |
| `ChunkLaws.WindowExistsIff` | libs/shared/shared/ingestion_core/chunking.py:100-120 | There is a chunk i exactly when there are words and some lie past the window before it |
| `ChunkLaws.ChunkIs` | libs/shared/shared/ingestion_core/chunking.py:104-116 | Chunk i starts at i steps, holds the words up to the window size joined by single blanks, has their first and last page, its text as digest and a quarter of its length, rounded up, as token count |
| `ChunkLaws.ChunkWords` | libs/shared/shared/ingestion_core/chunking.py:104-109 | Splitting chunk i's text gives back the words from its start up to the window size |
| `ChunkLaws.ChunksOverlap` | libs/shared/shared/ingestion_core/chunking.py:100-106 | Neighbouring chunks share exactly the overlap's words and the later one always adds a new word |
| `ChunkLaws.OrdinalsContiguous` | libs/shared/shared/ingestion_core/chunking.py:104-109 | Ordinals number the chunks from zero without a gap |
| `ChunkLaws.DigestIdentifiesText` | libs/shared/shared/ingestion_core/chunking.py:55-62 | The digest de-duplication compares identifies the chunk's text: normalising a chunk's own text changes nothing |
| `ChunkLaws.StreamAscends` | libs/shared/shared/ingestion_core/chunking.py:65-71 | Ascending page numbers give an ascending word stream |
| `Text.SplitJoin` | libs/shared/shared/ingestion_core/chunking.py:61-61 | Splitting undoes joining with blanks, for words |
| `Text.SplitStands` | libs/shared/shared/ingestion_core/chunking.py:69-69 | For every string: the words of a split stand in it at increasing, disjoint places, each a maximal whitespace-free stretch, and every other character is whitespace |
| `Text.SpacesAre` | libs/shared/shared/ingestion_core/chunking.py:69-69 | Whitespace is blank, tab, line feed, vertical tab, form feed and carriage return |
| `Text.JoinAppends` | libs/shared/shared/ingestion_core/chunking.py:106-106 | Joining puts the separator, by default one blank, between neighbours and nowhere else |
| `Text.TrimIs` | libs/shared/shared/ingestion_core/chunking.py:49-49 | Trimming keeps a stretch with only whitespace before and behind it and none at its ends |
| `PageRange.TagsBoundWords` | libs/shared/shared/ingestion_core/chunking.py:111-112 | A chunk's page tags are its first and last word's pages and bound every word in it |
| `PageRange.TagsAscend` | libs/shared/shared/ingestion_core/chunking.py:104-116 | Both tags ascend with the ordinal |
| `PageRange.PageRangeComplete` | libs/shared/shared/repositories/document_repository.py:107-130 | For ascending pages, the chunks fetched are exactly those whose tags meet the range; they are one run of ordinals and hold every word on those pages |
| `Retrieval.CollapseDuplicates` | services/api/api/services/retrieval_service.py:223-242 | The loop over a set of seen digests keeps, in hit order and each once, exactly the hits that repeat no earlier digest |
| `Retrieval.CollapsedKeepsFirsts` | services/api/api/services/retrieval_service.py:226-231 | A hit survives if and only if it has no digest or is the first with its digest |
| `Retrieval.CollapsedIsDistinct` | services/api/api/services/retrieval_service.py:226-231 | No digest survives twice |
| `Retrieval.Hydrate` | services/api/api/services/retrieval_service.py:180-197 | The passages show, in hit order and each once, exactly the hits with a row of the owner's: that row's text and the hit's own score, document, pages and title |
| `Retrieval.AnswerFrom` | services/api/api/services/retrieval_service.py:144-145 | Collapse, then hydrate: in hit order, each once, exactly the hits that repeat no digest and have a row of the owner's |
| `Retrieval.TopKRanks` | libs/shared/shared/vectorstore/chunks.py:155-195 | Search is best first and distinct, and what it leaves out beats nothing it returns and is left out only when full |
| `SearchLaws.RankingIs` | services/api/api/services/retrieval_service.py:112-142 | The ranking is of the searchable points, best first, each once, at most the limit asked for or the default; what is left out beats none of it. Searchable: the owner's, of the document asked for, and up to the page reached unless unread pages are asked for and spoiler-safe is off |
| `SearchLaws.RetrieveIs` | services/api/api/services/retrieval_service.py:112-153 | A search answers from that ranking: in its order, each once, exactly the hits that are first with their digest and have a row of the owner's, field by field; scores never rise |
| `Retrieval.PassageSource` | services/api/api/services/retrieval_service.py:119-153 | Every passage comes from a point inside owner, document and bound, with its own row's text |
| `Retrieval.UnreadCannotInterfere` | services/api/api/services/retrieval_service.py:126-145 | Under a bound, two libraries that differ only outside it give the same result |
| `ReadRange.NothingUnreadReturned` | services/api/api/services/retrieval_service.py:120-178 | For points searched in any reachable ingestion state and rows read in any later one, even with overlapping attempts: every word of every passage of a bounded search lies on a page up to the current one, and the passage is of the document asked for |
| `ReadRange.RunTraced` | services/ingestion/ingestion/pipeline.py:105-161 | Over every run, every row and point is what the attempt that minted its id built from its document's bytes, and no later step changes what an attempt works on |
| `Uploads.UploadsAgree` | services/api/api/services/ingestion_service.py:100-148 | However uploads and retries interleave without deletes: one document per owner and content, all uploads of it answer with that document, the original is stored, and upload events are one plus the accepted retries |
| `Uploads.RunKeeps` | services/api/api/services/ingestion_service.py:100-184 | The invariant survives every delete-free run from any state that has it |
| `Uploads.TableAlwaysHolds` | libs/shared/shared/models/document.py:45-48 | Over every run, deletes included: one document per owner and content, and each document has one upload event more than its accepted retries |
| `UploadDeletion.TakenIff` | services/api/api/services/document_service.py:46-51 | After any run, deletes included, a content is taken exactly as its last insert or delete says |
| `UploadDeletion.NoWinnerIff` | services/api/api/services/ingestion_service.py:128-138 | A call that lost its race finds no winner if and only if the last step on its content since then was a delete of the holder |
| `UploadDeletion.DeletionLeavesNoWinner` | services/api/api/services/ingestion_service.py:128-138 | A run with one delete, its original dropped first, that reaches the branch for a missing winner |
| `UploadDeletion.StoredIff` | services/api/api/services/document_service.py:49-49 | An original is stored exactly as its last put or drop says |
| `UploadDeletion.DeletionLosesOriginal` | services/api/api/services/document_service.py:46-51 | A run that leaves a pending document whose original is gone |
| `UploadDeletion.OneMaker` | services/api/api/services/ingestion_service.py:100-148 | Over every run, deletes included, at most one upload is told that it created a given document |
| `UploadService.Library.FindByContent` | services/api/api/services/ingestion_service.py:103-106 | The lookup finds the one document with the content, or says there is none |
| `UploadService.Library.InsertDocument` | services/api/api/services/ingestion_service.py:120-132 | Row and event appear together, or the unique constraint fires and nothing changed |
| `UploadService.Library.Upload` | services/api/api/services/ingestion_service.py:79-148 | Whatever other sessions do at its four awaits, the call is a protocol run, answers with the one document holding the content, has stored the original, and creates only content nobody had |
| `UploadService.Library.Retry` | services/api/api/services/ingestion_service.py:150-184 | Not found for an id without a document; else accepted exactly when the document was failed as read, and then it is pending and queued once more, whatever happened in between |
| `UploadService.Library.Interleave` | services/api/api/services/ingestion_service.py:100-184 | Any steps of other sessions form a protocol run that leaves this call where it is |
| `UploadService.Checked` | services/api/api/services/ingestion_service.py:100-108 | The first lookup answers with the holder of the content, touching no store, or goes on to the put |
| `UploadService.Inserted` | services/api/api/services/ingestion_service.py:112-128 | The insert adds a pending document, its event and the answer together, or, with the content taken, nothing |
| `UploadService.Lost` | services/api/api/services/ingestion_service.py:128-138 | The lookup after a lost race answers with the holder, or that there is none |
| `ToolReplay.ReplayMatches` | services/api/api/agent/graph.py:546-590 | A replay pauses exactly when it meets more interrupts than answers, at that interrupt, and searches exactly for the gated calls whose answer by position is not a denial |
| `ToolReplay.ReplayIs` | services/api/api/agent/tools.py:447-507 | A replay does one thing per call, in order: which calls pause, which answer each is given, and that a search goes out with the reader's edited query if there is one, else the call's own, else the one the history it saw suggests |
| `ApprovalLaws.StableSuffices` | services/api/api/agent/tools.py:447-507 | In a batch with stable pauses every search was asked about itself and not denied, whatever the stores did in between |
| `ApprovalLaws.UnstableBreaks` | services/api/api/agent/tools.py:313-338 | For every other batch some history and some change of the stores lets a call search without its own approval |
| `ApprovalLaws.DenialIsFinal` | services/api/api/agent/graph.py:578-583 | In such a batch a denied call never searches in any later replay |
| `ApprovalLaws.ApprovalsTheirOwnIffStable` | services/api/api/agent/graph.py:546-586 | Approvals are sure to be used for their own call if and only if no call whose pause depends on the stores precedes another that may pause, when either is gated |
| `ApprovalLaws.DeniedSearchRuns` | services/api/api/agent/tools.py:313-338 | A concrete batch and history in which a denied search runs |
| `TurnLaws.RunKeeps` | services/api/api/agent/graph.py:1101-1125 | The turn invariant survives every run of new turns, node executions and resumes |
| `TurnLaws.RiskyNeedsApproval` | services/api/api/agent/graph.py:1002-1067 | In every conversation an answer its last judging found risky is revealed only right after the warning was asked and approved |
| `SpoilerLaws.DeclinedStaysWithheldIff` | services/api/api/agent/graph.py:1012-1067 | In every reachable conversation waiting on a warning, after any answer but an approval the reply is withheld if and only if the replay still finds the reader's row, spoiler-safe on and a risk; else the declined text is shown |
| `SpoilerLaws.DeclinedIsShown` | services/api/api/agent/graph.py:1045-1067 | For every document a conversation in which the reader is warned, declines, and is shown the text |
| `TurnLaws.BlockReasonIffRejected` | services/api/api/agent/graph.py:706-742 | A finished turn has a block reason exactly when it was rejected, later nodes run only without one, and only a new turn follows a rejection |
| `TurnLaws.SearchesApproved` | services/api/api/agent/graph.py:843-866 | In every reachable conversation the tools node's stored answers are a true history, so in a stable batch every search it records was asked about itself, not denied, and goes out with the query its own answer gives or else its own |
| `TurnLaws.SearchesTheirQuery` | services/api/api/agent/graph.py:578-590 | In every reachable conversation, stable batch or not, a search goes out with the query of its own call, what it saw, and the answer it was given |
| `NodeLaws.BlockedIff` | services/api/api/agent/graph.py:706-742 | A new turn in any conversation is blocked exactly when flagged as an injection or judged off topic or unsafe, with that reason; else it goes on without a reason and without a document |
| `NodeLaws.GenerateLeaves` | services/api/api/agent/graph.py:820-842 | The answer model's text is the turn's, and tools come next exactly when it asks for some |
| `NodeLaws.FirstNamed` | services/api/api/agent/graph.py:422-446 | The document a batch of calls is about is the first one any of them names |
| `NodeLaws.ToolsLeave` | services/api/api/agent/graph.py:843-866 | A tools node that gets through makes that document the turn's; one that pauses keeps nothing but that it waits |
| `NodeLaws.SavedIff` | services/api/api/agent/graph.py:932-999 | A summary is saved of exactly the range from the answer, or else from the page past the mark to the current one, and exactly when one is due, not denied, not empty and well-formed |
| `NodeLaws.ConfirmationAskedIff` | services/api/api/agent/graph.py:932-955 | The reader is asked exactly when a summary is due and nothing was answered |
| `NodeLaws.WarnedIff` | services/api/api/agent/graph.py:1019-1058 | The reader is warned exactly when the turn named a document with a position, spoiler-safe is on for it, the judge finds a risk and nothing was answered; then nothing is shown |
| `NodeLaws.WithheldIff` | services/api/api/agent/graph.py:1059-1067 | The text is held back exactly when it is at risk and was answered with anything but an approval |
| `TurnLaws.AckIffEverSaved` | services/api/api/agent/graph.py:297-302 | A reply carries the save acknowledgement exactly when any turn of the conversation so far saved a summary |
| `AckLaws.AckRepeats` | services/api/api/agent/graph.py:297-302 | After every reachable finished turn of a conversation that saved, a turn that is let in and asks for no tool saves nothing and replies with the acknowledgement |
| `AckLaws.SavedConversation` | services/api/api/agent/graph.py:957-999 | For every document and any pages read a first turn reaches such a conversation |
| `EventStream.Stream` | services/api/api/services/agent_service.py:400-433 | The loop with its early returns yields the translation of the chunks up to the first interrupt or refusal |
| `EventStream.EventsConcat` | services/api/api/services/agent_service.py:400-433 | As long as nothing stops the stream, chunks are translated one after the other |
| `EventStream.TurnIsGrammatical` | services/api/api/services/agent_service.py:400-495 | Every completed stream of a new turn ends with exactly one answer, refusal or interrupt, the one the final checkpoint says; before a refusal come only statuses; every tool result follows a call with its id |
| `EventStream.RefusedStream` | services/api/api/services/agent_service.py:371-376 | A refused new turn streams exactly two statuses and the refusal |
| `EventStream.ToolsFirstIff` | services/api/api/services/agent_service.py:371-376 | Every tool event comes before every token if and only if the model says nothing whenever it asks for tools |
| `EventStream.TalkingTurn` | services/api/api/services/agent_service.py:458-472 | In any conversation there is a turn that shows a token before a call |
| `StreamLaws.TurnShows` | services/api/api/services/agent_service.py:400-495 | The stream of any turn shows exactly what its nodes did: its tokens, put together, are what the answer model said; its calls and results are those asked for and returned, in order; its statuses are the nodes that ran |
| `StreamLaws.LastEventIs` | services/api/api/services/agent_service.py:413-433 | The last event of a new turn, and no other, is the question it waits on, the reason it was refused, or its answer |
| `StreamLaws.KindIsAsked` | services/api/api/agent/graph.py:1049-1058 | An interrupt is of the kind the suspended node asked |
| `Reading.Store.UpdateProgress` | services/api/api/services/progress_service.py:90-154 | Refuses exactly a page that is negative or past a known last page, and then keeps nothing, not even a new row; else a named page becomes the current one, a status given is set, the last page without one completes, and row and trail are as `ReadingLaws.UpdateIs` says |
| `Reading.Store.Emit` | services/api/api/services/progress_service.py:301-342 | Appends an advance for a forward move, then one event for a change of status |
| `Reading.Store.GetOrCreate` | services/api/api/services/progress_service.py:255-277 | An existing row is kept, a missing one starts at page zero |
| `Reading.Store.AdvanceSummarizedPage` | services/api/api/services/progress_service.py:213-241 | Raises the mark to the page and never lowers it; reports a missing row |
| `Reading.Store.WriteSummary` | services/api/api/services/memory_service.py:124-164 | Saves exactly the well-formed ranges |
| `Reading.Store.PersistMemory` | services/api/api/agent/graph.py:919-995 | The confirmed save against the specification, with a stop possible between its two commits |
| `ReadingLaws.TrailConserves` | services/api/api/services/progress_service.py:117-145 | Over every run of updates one after another: pages gained are the current page plus all backward distance, the advances cover exactly the pages up to the highest reached, and the reader is never past the last advance |
| `ReadingLaws.StepMoves` | services/api/api/services/progress_service.py:318-327 | A step's event gains and covers exactly the pages between the old position and the new |
| `ReadingLaws.UpdateIs` | services/api/api/services/progress_service.py:116-145 | An update field by field: when it is refused, the page, the setting, the rule for the status, and the events of the change |
| `ReadingLaws.CompletedIffRecorded` | services/api/api/services/progress_service.py:318-342 | A document is completed exactly when the last status event in its trail is a completion |
| `ReadingRaces.SerialUpdate` | services/api/api/services/progress_service.py:116-145 | Read and committed with nothing in between, an update is the ledger's one step, refusals included |
| `ReadingRaces.SerialMark` | services/api/api/services/progress_service.py:222-235 | Read and advanced with nothing in between, the mark becomes the larger of itself and the page; a page count is the ledger's step as well |
| `ReadingRaces.MergedIs` | services/api/api/services/progress_service.py:116-145 | A commit writes exactly the columns its session changed from what it saw, and never the mark |
| `ReadingRaces.TrailAccount` | services/api/api/services/progress_service.py:116-145 | However sessions interleave: pages gained are the current page, all backward distance, and what each commit counted beyond what it moved |
| `ReadingRaces.ConservedAlongIff` | services/api/api/services/progress_service.py:116-145 | Pages gained stay page plus backward distance all along an interleaving if and only if every commit that moves the page finds the page it read still there, or goes back from both |
| `ReadingRaces.LostUpdate` | services/api/api/services/progress_service.py:117-145 | Two updates that both read page 0: the page is 8, thirteen pages are counted |
| `ReadingRaces.CoverageHolds` | services/api/api/services/progress_service.py:318-327 | However sessions interleave, the advances cover exactly the pages up to the highest reached |
| `ReadingRaces.CompletionHolds` | services/api/api/services/progress_service.py:328-342 | However sessions interleave, a document is completed exactly when the last status event committed is a completion |
| `ReadingRaces.PastLastAdvanceIff` | services/api/api/services/progress_service.py:316-327 | The reader gets past the last advance at exactly those commits that go back from the page they read and land beyond it |
| `ReadingRaces.PastLastAdvance` | services/api/api/services/progress_service.py:316-327 | An interleaving that ends on page 6 with its last advance to page 3 |
| `ReadingRaces.MarkGoesBackIff` | services/api/api/services/progress_service.py:222-235 | The summary mark goes back at exactly the advances that read a mark below their page and find one above it |
| `ReadingRaces.MarkGoesBack` | services/api/api/services/progress_service.py:222-235 | An interleaving whose last commit takes the mark from 8 back to 5 |
| `Reading.Store.RecordPageCount` | services/ingestion/ingestion/pipeline.py:148-148 | The end of ingestion sets the page count and touches no row |
| `ReadingLaws.StatusSince` | services/api/api/services/progress_service.py:279-299 | From any point of a run to the next override, the status is decided by whether a move since reached the page count known at that move, or the first page |
| `ReadingLaws.StatusIsEarnedIff` | services/api/api/services/progress_service.py:279-299 | Never overridden, the status is the one the highest page deserves by today's page count if and only if the count came neither after the reader had been there nor twice |
| `ReadingLaws.LateCountIsNotCompleted` | services/api/api/services/progress_service.py:117-131 | Five pages read, then a page count of three: still in progress |
| `ReadingLaws.SummariesTile` | services/api/api/agent/graph.py:936-995 | Over every run whose saves, each read to advance undisturbed, keep the proposal and both commits, the summaries tile the pages from 1 to the mark |
| `ReadingLaws.TilesMeans` | services/api/api/services/memory_service.py:143-157 | Tiling puts every page up to the mark in exactly one summary and any other page in none |
| `ReadingLaws.SaveKeepsTilingIff` | services/api/api/agent/graph.py:957-994 | A save keeps the tiling if and only if both commits come and its range starts right after the mark |
| `ReadingLaws.EditedStartLeavesGap` | services/api/api/agent/graph.py:957-994 | An edited start: pages 3 to 5 saved, the mark at 5, and two pages in no summary |
| `ReadingLaws.LostMarkRepeats` | services/api/api/agent/graph.py:980-994 | A stop after the first commit: the range is saved, the mark is not moved, and the same range is proposed again |
| `ReadingLaws.MarkMovesForward` | services/api/api/services/progress_service.py:221-235 | One after another, no step lowers the mark, loses a summary or shortens the trail |
| `ReadingLaws.MarkMayPassThePage` | services/api/api/services/progress_service.py:213-235 | The mark is not bounded by the current page: a concrete run |
| `ReadingLaws.GraphSavesRange` | services/api/api/agent/graph.py:946-995 | The graph's resumed node saves a range exactly when the ledger's rule gives that range |
| `ReadingLaws.SavedRangeIff` | services/api/api/agent/graph.py:936-972 | The saved range from row and answer: each end the answer's own or else the page past the mark and the current page, and when there is one at all |
| `ReadingLaws.ConfirmIs` | services/api/api/agent/graph.py:979-994 | A save adds its range behind the others and moves only the mark, forward to the range's end |
| `Analytics.PagesByDay` | services/api/api/services/analytics_service.py:105-121 | The loop over a dictionary lists exactly the days with forward movement, each with its sum |
| `Analytics.GainedOnIs` | services/api/api/services/analytics_service.py:112-120 | A day's sum grows by an advance on that day, by its pages, and by nothing else |
| `Analytics.TotalAndSeries` | services/api/api/services/analytics_service.py:87-103 | The sum over the sorted days is everything gained, and the series lists each active day once, in order |
| `Analytics.PagesAddUp` | services/api/api/services/analytics_service.py:87-88 | Summed over the active days, nothing gained is lost or counted twice |
| `Analytics.PagesReadConserved` | services/api/api/services/analytics_service.py:87-88 | Pages read over a whole run, updates one after another, of one document are the current page plus all backward distance |
| `Analytics.PagesReadAccount` | services/api/api/services/analytics_service.py:87-88 | With interleaved sessions they are the page, the backward distance and what the racing commits miscounted |
| `Analytics.Streaks` | services/api/api/services/analytics_service.py:123-145 | Longest is the largest number of consecutive active days anywhere, current the largest such run ending today and no longer; the backward walk ends because unvisited active days run out |
| `Analytics.ReadRunIs` | services/api/api/services/analytics_service.py:134-144 | A run of one day more is a day with pages gained and a run up to the day before |
| `Analytics.Compute` | services/api/api/services/analytics_service.py:77-103 | From a trail and the counts by status: pages read, the ordered series of active days, their number, a nearest hundredth to pages per active day, both streaks in terms of days with pages gained, and the three counts |
| `Sse.DispatchFrame` | services/frontend/src/api/client.ts:356-364 | Line by line: the last event line names the type, data lines join, and a frame without data dispatches nothing |
| `Sse.PrintIs` | services/api/api/routers/chat.py:246-248 | What the API prints for an event: a type line, a payload line, and a blank one |
| `Sse.DispatchIs` | services/frontend/src/api/client.ts:356-364 | A frame is its lines, with no line feed lost, and dispatches one message of their type and payload, or nothing without a data line |
| `Sse.EventIs` | services/frontend/src/api/client.ts:360-360 | The type is what the last event line says, trimmed, and message without one |
| `Sse.DataIs` | services/frontend/src/api/client.ts:361-364 | The payload lines are the data lines, trimmed, all of them and in order |
| `Sse.FramesAre` | services/frontend/src/api/client.ts:347-352 | A text is its frames, each with its blank line, and the rest; no frame and no rest holds a blank line |
| `Sse.ConsumeSse` | services/frontend/src/api/client.ts:337-354 | The nested loops over a growing buffer dispatch, for any cut into reads, the frames of the whole text, and keep its unfinished rest |
| `Sse.FramesAppend` | services/frontend/src/api/client.ts:342-352 | Reading a text in two goes is reading it at once, the second starting from what the first left over |
| `Sse.PrintedStreamIsRead` | services/api/api/routers/chat.py:246-248 | However the printed stream is cut, exactly its messages come out in order and the buffer ends empty |
| `AttachmentNote.UserTranscript` | services/api/api/routers/chat.py:131-146 | The loop over a counting dictionary prints the specified transcript |
| `AttachmentNote.BadgesAre` | services/api/api/routers/chat.py:140-145 | One badge for every kind sent and no other, with the number of attachments of that kind |
| `AttachmentNote.TranscriptIs` | services/api/api/routers/chat.py:138-146 | What is stored: the message without whitespace in front, a blank line, and the tags between brackets |
| `AttachmentNote.TagIs` | services/api/api/routers/chat.py:143-145 | How a tag is written, plural past one |
| `AttachmentNote.FirstSeenInOrder` | services/api/api/routers/chat.py:140-145 | Kinds are listed once each, in the order they first came |
| `AttachmentNote.FindNote` | services/frontend/src/components/Chat.tsx:66-72 | Finds the leftmost match of the note expression, or that there is none |
| `AttachmentNote.NoteAtIs` | services/frontend/src/components/Chat.tsx:66-67 | Where the expression matches, line feeds and tags between brackets run to the end |
| `AttachmentNote.NoteAtIf` | services/frontend/src/components/Chat.tsx:66-67 | And wherever they do, it matches |
| `AttachmentNote.IsTagIff` | services/frontend/src/components/Chat.tsx:66-67 | A tag is digits and one of four words |
| `AttachmentNote.TranscriptParsed` | services/frontend/src/components/Chat.tsx:69-78 | For every message and non-empty attachment list, parsing the printed transcript gives the trimmed message and every kind's count in first-seen order |
| `AttachmentNote.PlainMessageIff` | services/frontend/src/components/Chat.tsx:70-72 | A message sent without attachments comes back untouched if and only if it does not itself end in a note |
| `AttachmentNote.TypedNoteIsTaken` | services/api/api/routers/chat.py:138-146 | A typed note and a sent attachment are stored alike |
| `AttachmentNote.NumberOfDecimal` | services/frontend/src/components/Chat.tsx:73-76 | Reading a printed number gives it back |
| `AttachmentNote.NumberIs` | services/frontend/src/components/Chat.tsx:73-76 | A numeral's last digit counts once and the digits before it ten times |
| `RateLimit.RateLimitService.Count` | services/api/api/services/rate_limit_service.py:48-48 | INCR counts on a live key and starts a key that is gone at one, without a deadline |
| `RateLimit.RateLimitService.StartWindow` | services/api/api/services/rate_limit_service.py:49-50 | EXPIRE sets a live key's deadline and no other key's |
| `RateLimit.SentIs` | services/api/api/services/rate_limit_service.py:47-50 | What the two commands do to their key and its deadline, live or gone, and that no other key changes |
| `RateLimit.RateLimitService.Interleave` | services/api/api/services/rate_limit_service.py:5-8 | What other replicas send meanwhile keeps the log a possible one and a key without a deadline open |
| `RateLimit.RateLimitService.Enforce` | services/api/api/services/rate_limit_service.py:34-58 | One hit among other replicas' commands: what it adds to the log, that it is let through exactly if the log says so, and what a Redis error on either command does |
| `RateLimit.AdmittedCountsHits` | services/api/api/services/rate_limit_service.py:47-58 | The admitted hits of an interval are those the log lets through |
| `RateLimit.LockOut` | services/api/api/services/rate_limit_service.py:46-53 | From an empty Redis, hits whose EXPIRE fails fill a key that stays, and the next hit is turned away |
| `RateLimit.LockedOutIff` | services/api/api/services/rate_limit_service.py:46-58 | Without a further EXPIRE some later hit is let through if and only if the key is gone, has a deadline, or has room left |
| `RateLimit.WindowAdmits` | services/api/api/services/rate_limit_service.py:47-58 | Of one window's hits exactly the first limit are let through |
| `RateLimit.BurstBound` | services/api/api/services/rate_limit_service.py:10-13 | However hits arrive and replicas interleave, an interval as long as the window admits at most 2 * limit - 1 hits on a key |
| `RateLimit.BoundIsMet` | services/api/api/services/rate_limit_service.py:10-13 | For every limit and window a run attains that bound |
| `RateLimit.LostExpireLocksOut` | services/api/api/services/rate_limit_service.py:46-53 | When EXPIRE is lost, no hit is let through any more once the limit is counted |

## Left out

- Routers, authentication, OAuth, middleware, settings, logging, metrics, tracing, migrations and deployment.
- Model, embedding, transcription, vision and web-search calls: an arbitrary function or an arbitrary answer each time.
- Vector similarity is an arbitrary score function and search is exact top-k; SHA-256 is injective, so a digest is the
  text it digests; random ids are pairs of attempt and index.
- Every call to the vector store and every database transaction is atomic, as the pipeline's own comments assume; one
  that raises has not taken effect. Publishing a retry does not raise.
- Chapter and section filters, languages, authors and failure reasons: they decide none of the properties. The page
  count is a step of `Reading` and not tied there to the ingestion step that records it.
- UploadService.Library.Upload: file names, formats and the logged third case; the steps other sessions take are given
  to the call as sequences, and deletes are left to `UploadDeletion`.
- AgentGraph: modelled on values; the nodes return state changes that the checkpointer applies. What a node raises is
  kept only for the save whose range is refused; compaction, language choice, scratchpad, memories and token accounting
  are silent nodes.
- ToolReplay: arguments of a call appear only where they decide pausing or the search made; an edit that leaves out the
  query keeps it, and the results of tools are not modelled. A pause inside a replay is the framework's own: calls in
  order, one pause at a time, answers by position.
- EventStream.TurnIsGrammatical: for turns that run to their end or to a pause without a node raising; a resumed turn is
  not streamed. Tool results are taken to be one per requested call, in order.
- Reading.Store: one reader and one document, so ownership and the missing-document error are not modelled; each update
  is taken as undisturbed from read to commit, which `ReadingRaces` does not assume, and the two commits of a save are
  the only place where it can stop half-way.
- ReadingLaws.SummariesTile: takes the span from reading the position to advancing the mark as undisturbed; of two
  confirmations at once only their marks are modelled (`ReadingRaces`).
- ReadingRaces.CompletionHolds: the trail is in the order of commits; the stored time of an event is its transaction's
  start, which overlapping transactions may order otherwise.
- Analytics.Compute: which way a pace halfway between two hundredths is rounded, the trailing window, the event fetch
  cap and the cache.
- Sse.ConsumeSse: JSON stays text and the payload is handed on unparsed; json.dumps prints ASCII, so a cut between bytes
  is a cut between characters. The handler for each event type is not modelled.
- AttachmentNote.Parse: one whitespace set stands for both Python's and JavaScript's; the bytes of attachments are not
  kept.
- RateLimit.BurstBound: Redis up, a key gone at its deadline, and time as real numbers; with Redis down the limiter
  fails open and no bound holds.
- Library-wide retrieval, which the source leaves unbounded, and re-embedding.
- Recommendation ranking and the remaining tool bodies: they would only add easy members.
