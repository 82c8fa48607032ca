# Darna: a verified model of its protocols and stores

Darna is a multi-tenant CRM for real-estate agencies (NestJS, Prisma, PostgreSQL, a BullMQ worker).
This project models the parts of it that are more than table access, and proves what they promise:

| part | files here |
|---|---|
| message sequences: step lists, runs, concurrent ticks, stop requests, crashes | `StepLists`, `DedupeKeys`, `SequenceModel`, `SequenceEngine`, `SequenceInvariant`, `SequenceSafety`, `SequenceTheorems`, `SequenceSerial`, `SequenceOutcomes`, `SequenceDrain`, `SequenceStarvation`, `SequenceStore` |
| keyset pagination of leads, activities, notifications and tasks | `Keyset` |
| the CSV lead export and a reader for it | `CsvExport`, `CsvRawCells` |
| message templates: scanner, validator, substitution, whitespace | `Templates`, `Whitespace` |
| the calendar | `Planning` |
| documents, blobs, upload sessions, garbage collection | `StorageModel`, `StorageChain`, `StorageSessions`, `StorageOverlap`, `StorageHistory`, `StorageService` |
| rate limiter, webhook replay store | `RateLimit`, `ReplayStore` |
| background jobs: locks, runs, interleaved enqueues | `JobQueue`, `JobProtocol`, `JobSpacing`, `JobOverlap`, `JobLimits`, `JobAttempts` |
| lead routing, the WhatsApp inbox, the onboarding wizard | `LeadRouting`, `Inbox`, `Onboarding` |

`dafny verify dfyconfig.toml` checks everything. `Prelude` holds the shared vocabulary.

## How the system is modelled

- One `withOrg` call is one atomic step. A tick of the sequence engine takes many such steps per run, from a
  snapshot it fetched earlier, so `SequenceEngine` is a state machine over single transactions: any number of
  worker and API ticks, service calls, exceptions and crashes interleave in any order. Its theorems speak about
  every action sequence from the empty database.
- `SequenceStore`, `PlanningService`, `Storage`, `Guards`, `Replays`, `Jobs`, `Routing`, `InboxService` and `Wizard`
  are classes with the rows or maps as fields and the services' methods, branch by branch. Each method's
  contract equates the new state with a specification function of the old one; the run theorems speak about
  these functions, and the `…Outcome` lemmas say on the rows alone what each of them does.
- An enqueue is four database statements with no transaction around them, so `JobProtocol` is a second state machine: callers,
  the worker and the administrator interleave statement by statement. `EnqueueIsLoneThread` ties the class's method to it.
- `confirm` and `newVersion` read the session, judge what they read and only then open their transaction, so
  `StorageOverlap` is a third state machine: any number of such calls, each look, check and commit on its own, with
  collector marks, crashes and all other transactions in between. `LoneCaller` ties it to the whole calls.
- Timestamps are integers in ms and the clock never goes back. The rate limiter and the replay store read the clock twice
  in one call and an enqueue three times, and so do their models.
- A failed insert on a unique index (P2002) is a refusal that changes nothing. The indexes relied on are those of
  `apps/api/prisma/schema.prisma`: one run per (organisation, sequence, lead), one run step per (organisation, run,
  orderIndex), one outbound job per (organisation, type, dedupeKey), one job lock per (organisation, key) where the
  organisation is not null, one upload session per storage key.
- Everything the outside decides (replies, a lead's contact data, the object store's answers, role and membership checks)
  is a parameter of the step that observes it.

## What the proofs found

Where the code does less than its parts suggest, the project states exactly when it does what one would expect, for
all inputs, and gives an input for the rest.

- A run step is unique per run and index, so a slow worker cannot write `nextStepIndex` back, and the outbound
  dedupe key is never found taken (`NothingGoesBack`, `DedupeNeverRefuses`).
- A crash or exception after the run step is inserted and before the run is advanced parks the run: it stays due,
  is fetched by every tick, and never advances (`LosingTheOwnerParks`, `ParkedForever`). Repeated ticks empty the due
  set if and only if no run is parked (`TicksDrainIffNoneStuck`), and once fifty parked runs are due before everything else
  the worker never does anything again (`StarvedForever`; `OnlyStuckFetchedIff` is the exact condition).
- An outbound job whose queueing failed is reported as a duplicate from then on (`CreateJob`).
- The tick does not look at the sequence's status, so runs of a paused sequence go on; and because runs are unique
  per sequence and lead, a sequence can be started for a lead once, ever (`SequenceStore.Store.StartRun`).
- Paging over `updatedAt` (tasks) can miss a row touched between two requests (`TouchedTaskIsMissed`); `ReturnedIff`
  gives the exact condition.
- Reassigning an event without sending a date skips the overlap check (`UpdateKeepsIff`, `ReassignCanDoubleBook`).
  Creates that overlap double-book exactly when two of them are for one assignee and intersect (`OverlappingCreatesIff`).
- A presign that dies between its two transactions leaves a placeholder storage key behind that blocks every later
  presign (`LostPresignBlocksAll`). `newVersion` accepts an aborted session, `confirm` does not (`AbortedSession`).
- An upload session already turned into a version is turned into another one exactly when the later call's check passed,
  and it looked before the earlier commit or is a `newVersion` that saw the session ABORTED (`SecondUseIff`). The second
  case is real: a signature refusal that comes late overwrites CONFIRMED (`StaleMarkReopens`). While no such mark falls
  in between, looking before the earlier commit is the whole condition (`BothUseIff`).
- A job type that shares its idempotency key with a shorter-lived one loses its lock early (`SharedKeyIff`,
  `SharedKeyBreaksSpacing`); the next enqueue of a job is safe if and only if every live run is covered or has had its time
  (`SafeIffCovered`). Two enqueues that overlap leave two live runs if and only if the lock row already existed when each read
  it, or the key has no organisation (`OverlappingEnqueuesIff`); on the first use of an organisation's key exactly one gets
  through (`FirstUseHasOneWinner`). A run left in RETRYING is never picked up again and cannot be retried (`RetryingIsFinal`); one
  whose queue entry was refused, or ignored on a retry because the queue keeps the finished one, stays QUEUED for good
  and goes on answering enqueues while its lock lasts (`LostIsFinal`). Every type allows at least two attempts, but the
  queue delivers an entry once: unless a worker dies over one and it is redelivered, no run is ever FAILED and no retry
  ever does anything (`NeverFailed`). A
  deduplicated answer can name a run whose time was up before a newer one failed (`StaleAnswer`).
- A repeated WhatsApp event opens an empty, unreplied thread when no thread fits its phone and integration
  (`DuplicateOpensThreadIff`); two first messages of a customer that overlap open two threads (`OverlappingEventsSplitIff`);
  answering a customer does not end the waiting state (`WaitsUntilClosed`).
- A client told to retry after n seconds can be refused again when it does exactly that (`RetryAfterIff`).
- The code that should mark the skipped collaborators step of an independent agent never applies (`SkipMarksNothing`);
  `CollaboratorsMissingIff` says when exactly a completed wizard lacks the step.
  A completed onboarding can still be stepped back; it stands at DONE if and only if that has not happened (`AtDoneIff`).

## Model

| member | source | states |
|---|---|---|
| StepLists.OrderChecksDecide | apps/api/src/sequences/message-sequences.service.ts:127-140 | the two loops over the sorted list accept a list exactly when its order indexes are a permutation of 0..N-1 and delays rise with the order index, in whatever order the caller sends it |
| StepLists.SentIsSorted | apps/api/src/sequences/message-sequences.service.ts:127-133 | for an accepted list the sorted copy holds at position k the step whose `orderIndex` is k |
| StepLists.CheckSteps | apps/api/src/sequences/message-sequences.service.ts:127-149 | the three validation loops accept exactly the lists described above whose templates exist with the step's channel; each ordering error is reported exactly when its check is the first to fail, and a template error is that of the first offending step in order |
| DedupeKeys.DedupeKeyInjective | apps/worker/src/processors/sequence-tick.processor.ts:230 | two (run, step index) pairs never share a dedupe key |
| SequenceTheorems.AtMostOneJob | apps/worker/src/processors/sequence-tick.processor.ts:84-268 | under every interleaving of ticks, services, exceptions and crashes there is at most one outbound job per sequence, lead and step index |
| SequenceTheorems.JobsFollowRunSteps | apps/worker/src/processors/sequence-tick.processor.ts:172-248 | a job for step j exists only after every step up to j has its run step |
| SequenceTheorems.DedupeNeverRefuses | apps/worker/src/processors/sequence-tick.processor.ts:172-259 | a thread about to insert a job never finds its dedupe key taken, because the run-step insert already let only one thread through |
| SequenceTheorems.NothingGoesBack | apps/worker/src/processors/sequence-tick.processor.ts:297-318 | along any continuation a run's index never decreases although it is computed from a stale snapshot, a run that left RUNNING never returns to it, and run steps and jobs are never removed |
| SequenceTheorems.TimingOnUnchangedList | apps/worker/src/processors/sequence-tick.processor.ts:297-318 | with one step list: a RUNNING run is due at its start plus the delay of its next step, no run step precedes its due time, and a COMPLETED run has exactly one run step for each index |
| SequenceTheorems.TimingOnAnyLists | apps/api/src/sequences/message-sequences.service.ts:186-204 | with lists replaced meanwhile: due time and run steps are still justified by some list the sequence has had |
| SequenceTheorems.AtMostOneJobAfterStop | apps/api/src/sequences/message-sequences.service.ts:215-234 | after `stopRun` commits, any continuation adds at most one job for the run, for the step it stood at, and the run is never RUNNING again |
| SequenceTheorems.OnlyEarlierFetchesSend | apps/worker/src/processors/sequence-tick.processor.ts:62-89 | such a late job can come only from a tick that had already fetched the run |
| SequenceTheorems.LosingTheOwnerParks | apps/worker/src/processors/sequence-tick.processor.ts:75-81 | an exception or crash between run-step insert and advance leaves the run with its current run step and no thread to move it on |
| SequenceTheorems.ParkedForever | apps/worker/src/processors/sequence-tick.processor.ts:172-183 | no continuation whatever advances such a run or sends another message for it |
| SequenceSafety.StepKeepsInv | apps/worker/src/processors/sequence-tick.processor.ts:84-318 | every single transaction of workers, API ticks and services keeps the protocol invariant and only grows the tables |
| SequenceSafety.DispatchKeeps | apps/api/src/sequences/sequence-tick.service.ts:59-218 | the API twin's different step statuses and early exits keep the same invariant as the worker's |
| SequenceSerial.ProcessIsLoneThread | apps/worker/src/processors/sequence-tick.processor.ts:84-295 | a whole `processOneRun` by one worker does to the tables exactly what a thread of the interleaved protocol does when left alone |
| SequenceOutcomes.SendsIff | apps/worker/src/processors/sequence-tick.processor.ts:84-268 | a processing writes an outbound job if and only if no reply stops it, the step exists and has no run step, the lead exists, has not opted out and meets the conditions, provider and contact are there and the key is free; then exactly that step's job |
| SequenceOutcomes.ClosingOutcome | apps/worker/src/processors/sequence-tick.processor.ts:93-161 | a reply closes the run as CANCELED, a missing step as COMPLETED, a missing lead as FAILED, an opt-out as CANCELED, in this order, and nothing else changes |
| SequenceOutcomes.StepOutcomeIs | apps/worker/src/processors/sequence-tick.processor.ts:172-318 | otherwise the run step ends SKIPPED, FAILED, SCHEDULED or SENT by conditions, contact, provider and insert, and the run moves to the next step or is completed; a step that has its run step changes nothing |
| SequenceOutcomes.StopOutcome | apps/api/src/sequences/message-sequences.service.ts:215-234 | a stop turns the run's open run steps to CANCELED and touches no finished step and no other row |
| SequenceOutcomes.DueIsFetched | apps/worker/src/processors/sequence-tick.processor.ts:62-71 | a running run whose time has come, even just now, is fetched, unless fifty that are due no later are |
| SequenceOutcomes.FetchedInOrder | apps/worker/src/processors/sequence-tick.processor.ts:62-71 | what is fetched is running and due, each run once, earliest first |
| SequenceOutcomes.StartOutcome | apps/api/src/sequences/message-sequences.service.ts:176-213 | the two transactions of an undisturbed start: a run at index 0, due at now plus start delay plus first delay, unless the sequence and lead have one |
| SequenceOutcomes.ServiceOutcome | apps/api/src/sequences/message-sequences.service.ts:109-172 | a new sequence is a draft without steps; a status call writes the status and a list call the sorted steps of its own sequence only |
| SequenceOutcomes.MarkOutcome | apps/api/src/sequences/sequence-tick.service.ts:184-208 | where the two ticks differ after the insert: the worker marks SENT or FAILED, the API's twin SCHEDULED, or SENT for a duplicate, and gives the run up on a failure without a write |
| SequenceOutcomes.RouteOutcome | apps/api/src/sequences/sequence-tick.service.ts:134-172 | a missing provider ends the step FAILED and a missing contact SKIPPED, in both ticks; a failing insert FAILED in the worker only |
| SequenceOutcomes.DispatchSendsIff | apps/worker/src/processors/sequence-tick.processor.ts:195-268 | in every reachable state a dispatching thread, worker or API, adds a job if and only if provider, contact and insert are in order: the job of its step |
| SequenceOutcomes.EveryJobWasCleared | apps/worker/src/processors/sequence-tick.processor.ts:84-268 | over every run each job comes from a processing whose examination saw no stopping reply, an existing lead without opt-out and passing conditions, and which wrote that run step itself |
| SequenceOutcomes.RefusedNeverSends | apps/worker/src/processors/sequence-tick.processor.ts:93-193 | a processing that observed one of these obstacles never adds a job, whatever interleaves |
| SequenceDrain.TickLowers | apps/worker/src/processors/sequence-tick.processor.ts:59-82 | with no parked run, a tick lowers the total remaining steps by at least min(50, number due) |
| SequenceDrain.TicksDrain | apps/worker/src/processors/sequence-tick.processor.ts:59-82 | one worker at a frozen clock empties the due set in at most as many ticks as there were remaining steps |
| SequenceDrain.TicksDrainIffNoneStuck | apps/worker/src/processors/sequence-tick.processor.ts:59-183 | when nothing outside ends a run, the due set is emptied if and only if no due run is parked |
| SequenceStarvation.OnlyStuckFetchedIff | apps/worker/src/processors/sequence-tick.processor.ts:62-71 | every answer to the tick's query holds parked runs only if and only if at least fifty parked runs are due before each run that could be processed |
| SequenceStarvation.StarvedForever | apps/worker/src/processors/sequence-tick.processor.ts:59-82 | from such a state with fifty parked runs, waiting and ticking in any amounts never changes a row but the clock |
| SequenceDrain.DueBatchExists | apps/worker/src/processors/sequence-tick.processor.ts:62-71 | in every database the tick's query (50 or all due runs, earliest first) has an answer |
| SequenceStore.Store.Activate | apps/api/src/sequences/message-sequences.service.ts:83-91 | activates exactly the known sequences that have steps and changes nothing else |
| SequenceStore.Store.ReplaceSteps | apps/api/src/sequences/message-sequences.service.ts:109-172 | stores the sorted list exactly when the sequence is DRAFT or PAUSED and the list is accepted; otherwise nothing changes |
| SequenceStore.Store.StartRun | apps/api/src/sequences/message-sequences.service.ts:176-213 | starts a run due at start plus first delay exactly when the sequence is ACTIVE, the lead exists and the pair never had a run |
| SequenceStore.Store.Stop | apps/api/src/sequences/message-sequences.service.ts:215-234 | cancels the run and its open run steps in one transaction, only for the lead the run belongs to |
| SequenceStore.Store.SendStep | apps/worker/src/processors/sequence-tick.processor.ts:195-267 | the worker's send inserts at most one job per type and dedupe key; the statuses of every other outcome are those of the specification |
| SequenceStore.Store.CreateJob | apps/api/src/integrations/outbound/outbound-jobs.service.ts:20-56 | the API's insert keeps one job per type and dedupe key, answers duplicate exactly when the key is taken, and leaves the row behind when queueing it fails |
| SequenceStore.Store.ProcessOneRun | apps/worker/src/processors/sequence-tick.processor.ts:84-295 | the branches of one processing, in order, equal the serial specification that refines the protocol; it adds a job exactly when nothing stands against it |
| SequenceStore.Store.Tick | apps/worker/src/processors/sequence-tick.processor.ts:59-82 | takes all snapshots first and processes them in order; the result is a tick in the sense of the draining theorems |
| Keyset.WalkIsDescending | apps/api/src/lead/lead.service.ts:127-184 | following `nextCursor` yields strictly newest-first rows and no key twice, whatever changes between requests |
| Keyset.SteadyRowReturnedOnce | apps/api/src/crm/activities/activities.service.ts:63-100 | a row present throughout with an unchanged sort key comes exactly once, whatever is inserted or deleted between pages |
| Keyset.FixedTableWalk | apps/api/src/notifications/notification.service.ts:255-292 | on a fixed table the pages concatenate to the whole sorted filtered list in max(1, ceil(n / limit)) requests |
| Keyset.FixedWalkExists | apps/api/src/notifications/notification.service.ts:255-292 | on a fixed table following `nextCursor` comes to an end, for every positive limit |
| Keyset.ReturnedIff | apps/api/src/crm/tasks/tasks.service.ts:170-215 | a matching row whose timestamp may move up is returned if and only if it stands below the cursor at every request until then |
| Keyset.MovedRowNeverTwice | apps/api/src/crm/tasks/tasks.service.ts:170-215 | even a touched task never comes on two pages |
| Keyset.TouchedTaskIsMissed | apps/api/src/crm/tasks/tasks.service.ts:170-215 | a task touched between two requests can match at both and be on neither page |
| Keyset.LimitsArePositive | apps/api/src/notifications/notification.service.ts:255-292 | page sizes are clamped to 1..100 for leads and 1..50 for activities and tasks; for notifications they are positive exactly when the caller asks for at least 1 |
| CsvExport.ExportReadsBack | apps/api/src/dashboard/dashboard.service.ts:489-522 | a reader following section 2 of RFC 4180 with LF as record separator recovers the header and every cell of every lead, for any free text |
| CsvRawCells.ExportReadsBackIff | apps/api/src/dashboard/dashboard.service.ts:489-522 | the export reads back as its cells if and only if no id, enum or timestamp in it holds a comma, a quote or a line feed: these columns are printed unescaped |
| CsvExport.ExportShowsLeads | apps/api/src/dashboard/dashboard.service.ts:489-514 | in the text read back each lead's record shows each of the seventeen fields under its own name, the owner's name by the owner id, and the budgets as the same numbers |
| CsvExport.ExportIsInjective | apps/api/src/dashboard/dashboard.service.ts:489-522 | two exports with equal text are of equally many leads, equal field by field but for absent and empty texts, with equal owner names |
| CsvExport.ReadsCell | apps/api/src/dashboard/dashboard.service.ts:517-522 | any escaped cell followed by a delimiter is read back as itself |
| Templates.FoundIsEveryOccurrence | apps/api/src/sequences/sequence-renderer.service.ts:18-30 | the left-to-right scanner finds every placeholder occurrence at its position and nothing else |
| Templates.WordCharIs | apps/api/src/sequences/sequence-renderer.service.ts:18-30 | the characters of a variable name, by character code |
| Templates.ScanIsLossless | apps/api/src/sequences/sequence-renderer.service.ts:18-30 | literals and placeholders of a scan put together give the template back |
| Templates.SubjectThenBody | apps/api/src/sequences/sequence-renderer.service.ts:32-34 | scanning `subject + ' ' + body` finds the subject's placeholders followed by the body's |
| Templates.ExtractVariables | apps/api/src/sequences/sequence-renderer.service.ts:22-30 | returns each mentioned variable once, in order of first appearance |
| Templates.ValidateVariables | apps/api/src/sequences/sequence-renderer.service.ts:32-40 | passes exactly when every placeholder of body and subject is allowed, and otherwise names one that is not |
| Templates.ValueStandsVerbatim | apps/api/src/sequences/sequence-renderer.service.ts:60-62 | around any placeholder the output is the part before, the variable's value verbatim and not rescanned, the part after |
| Templates.NoPlaceholderNoChange | apps/api/src/sequences/sequence-renderer.service.ts:60-62 | a text that mentions no variable is substituted to itself |
| Templates.PlaceholderShowsOwnValue | apps/api/src/sequences/sequence-renderer.service.ts:42-62 | wherever one of the eleven variables stands the output shows its own field of the lead, agent or company: the full name up to its first space, the phone, the same number, and so on |
| Templates.ValidatedHasOwnValue | apps/api/src/sequences/sequence-renderer.service.ts:32-62 | so every placeholder of a validated template shows its own value, never the empty default |
| Templates.OnlyMentionedFieldsShow | apps/api/src/sequences/sequence-renderer.service.ts:42-62 | two leads, companies and agents that agree on the fields of the mentioned variables render alike |
| Whitespace.NormaliseIsNormal | apps/api/src/sequences/sequence-renderer.service.ts:63-64 | rendered text has no two adjacent whitespace characters and none at either end |
| Whitespace.NormalIffFixed | apps/api/src/sequences/sequence-renderer.service.ts:63-64 | text of that shape is exactly the text normalising leaves alone |
| Whitespace.NormaliseKeepsWords | apps/api/src/sequences/sequence-renderer.service.ts:63-64 | the words of the text survive in order and unsplit |
| Whitespace.NormaliseIsWoven | apps/api/src/sequences/sequence-renderer.service.ts:63-64 | the result in full: the words in order, between them a lone whitespace character as it was and a space for every longer run, nothing at the ends |
| Whitespace.WhitespaceIs | apps/api/src/sequences/sequence-renderer.service.ts:63-64 | the characters that count as whitespace, one by one |
| Whitespace.RenderedText | apps/api/src/sequences/sequence-renderer.service.ts:60-65 | a rendering is normal, stable under a second normalisation, and is the words of the substituted template woven with its narrowed gaps |
| Planning.PlanningService.Create | apps/api/src/planning/planning.service.ts:54-142 | inserts exactly when range, membership, lead and overlap checks pass; which error is reported, and nothing else changes |
| Planning.PlanningService.Update | apps/api/src/planning/planning.service.ts:234-343 | the overlap check guards the write only when a date is sent; refused updates change nothing |
| Planning.PlanningService.FindConflict | apps/api/src/planning/planning.service.ts:528-560 | finds a conflicting active event of the assignee if and only if there is one |
| Planning.PlanningService.Cancel | apps/api/src/planning/planning.service.ts:345-396 | cancels exactly the live events that are not canceled yet |
| Planning.PlanningService.Complete | apps/api/src/planning/planning.service.ts:398-453 | completes exactly the scheduled events |
| Planning.PlanningService.Remove | apps/api/src/planning/planning.service.ts:455-488 | marks exactly the events not yet deleted |
| Planning.ValidMeans | apps/api/src/planning/planning.service.ts:523-560 | what the runs keep, on the rows: events of more than 0 and at most 28 800 000 ms, and of two live ones of an assignee one ends before or when the other starts |
| Planning.CreateOutcome | apps/api/src/planning/planning.service.ts:54-142 | a create goes through exactly when every event is another assignee's, deleted, canceled, over by its start or starting after its end; touching intervals are free |
| Planning.UpdateOutcome | apps/api/src/planning/planning.service.ts:234-343 | which of the sent and stored fields the row ends with, and that only a sent date makes the range and the other events matter |
| Planning.ClosingOutcome | apps/api/src/planning/planning.service.ts:345-488 | cancelling, completing and removing write status or deletion of an event they may act on and nothing else |
| Planning.UpdateKeepsIff | apps/api/src/planning/planning.service.ts:253-261 | an allowed update keeps the calendar free of double bookings if and only if a date was sent, the event is canceled, or nothing of the new assignee meets it |
| Planning.ReassignCanDoubleBook | apps/api/src/planning/planning.service.ts:234-261 | an allowed reassignment without a date can double-book |
| Planning.OverlappingCreatesIff | apps/api/src/planning/planning.service.ts:75-78 | any number of creates whose checks passed on one valid calendar, inserted in any order, keep it valid if and only if no two of them are for one assignee and intersect |
| Planning.RunKeepsValid | apps/api/src/planning/planning.service.ts:54-488 | over any run of calls that sends a date with every reassignment, no two live events of one assignee intersect and each lasts more than 0 and at most 8 hours |
| Planning.BookedAtMostWindow | apps/api/src/planning/planning.service.ts:523-560 | hence an assignee's booked time inside any window is at most the window's length |
| StorageChain.RunKeepsInv | apps/api/src/storage/storage.service.ts:116-303 | any interleaving of presign, confirm, newVersion, scan, deletion and collection keeps version chains, live blob references and one blob per content |
| StorageChain.ReachableChains | apps/api/src/storage/storage.service.ts:274-295 | in every reachable state a document's versions are exactly 1..n, exactly one is current, it is n, and its blob exists |
| StorageChain.HistoryKept | apps/api/src/storage/storage.service.ts:280-295 | without a purge no stored version is lost, renumbered or pointed at another blob |
| StorageChain.PurgeKeepsInv | apps/worker/src/processors/storage-gc.processor.ts:41-56 | purging documents with their versions keeps all of this for the rest |
| StorageChain.LostPresignBlocksAll | apps/api/src/storage/storage.service.ts:33-56 | a presign that fails between its two transactions leaves a placeholder key, after which no session is ever created |
| StorageSessions.SessionUsedOnce | apps/api/src/storage/storage.service.ts:81-110 | over any run of non-overlapping calls with a nondecreasing clock, an upload session yields at most one version |
| StorageSessions.ConfirmedCanBecomeExpired | apps/api/src/storage/storage.service.ts:88-94 | a confirmed session offered again after its end is relabelled EXPIRED |
| StorageSessions.AbortedSession | apps/api/src/storage/storage.service.ts:229-249 | `confirm` always turns an aborted session away; `newVersion` takes it exactly when the document is active and the upload looks right |
| StorageSessions.CheckOutcome | apps/api/src/storage/storage.service.ts:85-111 | which of the six refusals the checks give, exactly, in their order, and the mark each leaves on the session |
| StorageSessions.ConfirmOutcome | apps/api/src/storage/storage.service.ts:70-191 | `confirm` succeeds exactly for a session in time, neither used nor aborted, whose upload has the declared size and signature; it leaves one document with version 1, the session used, and the content's one blob, new ones QUARANTINED except in development |
| StorageSessions.NewVersionOutcome | apps/api/src/storage/storage.service.ts:210-309 | the same for `newVersion` on an active document: the next number is current, no other is, and the blob is found or stored as above |
| StorageSessions.PresignOutcome | apps/api/src/storage/storage.service.ts:33-56 | a new session ends in fifteen minutes; with a placeholder key in the table nothing is created |
| StorageSessions.CollectOutcome | apps/worker/src/processors/storage-gc.processor.ts:14-39 | the collector relabels exactly the pending and uploaded sessions past their end |
| StorageSessions.CommittingTwiceUsesTwice | apps/api/src/storage/storage.service.ts:116-185 | the transaction does not look at the session again: run twice for one session it creates two documents sharing one blob, whatever the session's status |
| StorageOverlap.SecondUseIff | apps/api/src/storage/storage.service.ts:81-303 | after some commit has used a session, a `confirm` or `newVersion` whose check and commit lie anywhere in the run uses it again if and only if its check passed on the row it read, and it read before that commit or is a `newVersion` that read ABORTED |
| StorageOverlap.BothUseIff | apps/api/src/storage/storage.service.ts:81-303 | when no signature refusal marks the session between the first commit and the second look: both use it if and only if the second check passed and that call looked before the first commit, for any mix of the two calls and anything else in between |
| StorageOverlap.MarkIsStale | apps/api/src/storage/storage.service.ts:107-111 | over a used session a refusal writes ABORTED only for a call that looked before the session was used, or that read ABORTED itself |
| StorageOverlap.StaleMarkReopens | apps/api/src/storage/storage.service.ts:109-111 | the mark does happen: a run in which a late signature refusal overwrites CONFIRMED with ABORTED and a `newVersion` that looks only then uses the session again |
| StorageOverlap.UsesShareBlob | apps/api/src/storage/storage.service.ts:117-138 | two commits with the same content hash, however far apart, point their versions at one blob |
| StorageOverlap.LoneCaller | apps/api/src/storage/storage.service.ts:81-185 | look, check and commit with nobody in between do to the tables what the whole call does |
| StorageOverlap.RunKeeps | apps/api/src/storage/storage.service.ts:81-303 | under every interleaving the storage invariant holds, and a used session is CONFIRMED, marked ABORTED or past its end |
| StorageOverlap.OthersOutcome | apps/worker/src/processors/storage-gc.processor.ts:14-39 | what comes in between two steps of a call is the collector's mark and every other transaction as it is |
| StorageHistory.StatusIsFirstVerdict | apps/api/src/storage/storage.service.ts:117-138 | over any run a stored blob goes back to one upload, has its content, and the status of its first scan since; unscanned it is QUARANTINED, or SAFE in development |
| StorageHistory.SafeIffFirstScanSaysSo | apps/worker/src/processors/avscan.processor.ts:10-29 | in production a blob is SAFE if and only if it was scanned since it was stored and the first of these scans said so |
| StorageHistory.ServedWasScanned | apps/api/src/storage/storage.service.ts:330-357 | so in production a download serves only content that its first scan found safe |
| StorageHistory.GoneIffDeletedLongAgo | apps/worker/src/processors/storage-gc.processor.ts:41-57 | over any run a document disappears exactly by a collection more than thirty days after the deletion it has been lying deleted since |
| StorageService.Storage.Presign | apps/api/src/storage/storage.service.ts:33-56 | succeeds exactly when it does not die and no placeholder key is in the table |
| StorageService.Storage.Confirm | apps/api/src/storage/storage.service.ts:70-191 | checks, find-or-create of the blob, document with version 1, session confirmed, equal to the specification and invariant kept |
| StorageService.Storage.NewVersion | apps/api/src/storage/storage.service.ts:210-309 | checks, then demotes the current version and appends the highest number plus one; invariant kept |
| StorageService.Storage.ScanBlob | apps/worker/src/processors/avscan.processor.ts:4-31 | a quarantined blob gets the verdict; an unknown one is an error and one with a verdict keeps it |
| StorageService.Storage.Download | apps/api/src/storage/storage.service.ts:330-357 | serves the blob of the document's highest version, exactly when the document is active and that blob is SAFE |
| StorageService.Storage.SoftDeleteDocument | apps/api/src/storage/storage.service.ts:359-380 | deletes exactly what exists, is not deleted, and the caller may delete |
| StorageService.Storage.CollectSessions | apps/worker/src/processors/storage-gc.processor.ts:14-39 | expires exactly the pending or uploaded sessions past their end and returns how many |
| StorageService.Storage.PurgeDocuments | apps/worker/src/processors/storage-gc.processor.ts:41-57 | removes exactly the documents deleted more than thirty days ago, with their versions |
| RateLimit.CleanupIsInvisible | apps/api/src/common/guards/rate-limit.guard.ts:37-44 | on every request sequence, for all keys and policies, the limiter with lazy deletion gives the same answers and headers as one that never deletes |
| RateLimit.AtMostCap | apps/api/src/common/guards/rate-limit.guard.ts:63-91 | in a closed interval of k windows one key gets at most (k + 1) * max - 1 requests through (max for k = 0) |
| RateLimit.CapIsReached | apps/api/src/common/guards/rate-limit.guard.ts:67-72 | for every max, window and k from 1 to the window's length in ms some run reaches that bound |
| RateLimit.WorstCaseIsARun | apps/api/src/common/guards/rate-limit.guard.ts:67-72 | that run is one of one key and policy on a clock that never goes back |
| RateLimit.RefusedOnlyAboveMax | apps/api/src/common/guards/rate-limit.guard.ts:81-89 | a refused request is at least the (max + 1)-th of its key in the closed window ending with it |
| RateLimit.RemainingIsHonest | apps/api/src/common/guards/rate-limit.guard.ts:74-79 | while the window lasts, the next request of the key is admitted exactly when the answered `remaining` is not 0 |
| RateLimit.RetryAfterIff | apps/api/src/common/guards/rate-limit.guard.ts:67-82 | a refused client that waits exactly the `Retry-After` seconds gets in if and only if the rest of its window was not a whole number of seconds |
| RateLimit.GlobalAtMostCap | apps/api/src/common/guards/rate-limit.guard.ts:104-145 | the global guard keeps the same bound with 300 per user and 500 per address in five minutes |
| RateLimit.GlobalKeysApart | apps/api/src/common/guards/rate-limit.guard.ts:110-125 | every user has a bucket of its own and every address one, never shared, with 300 and 500 requests in five minutes |
| RateLimit.Guards.Cleanup | apps/api/src/common/guards/rate-limit.guard.ts:37-44 | within a minute of the last one nothing happens; otherwise the loop deletes exactly the expired buckets |
| RateLimit.Guards.CanActivate | apps/api/src/common/guards/rate-limit.guard.ts:52-92 | one guarded request is one step of the limiter the theorems speak about |
| RateLimit.Guards.GlobalCanActivate | apps/api/src/common/guards/rate-limit.guard.ts:110-145 | one global request is one step of the limiter without deletion |
| ReplayStore.StoreIsRecentLog | apps/api/src/webhooks/webhook-security.ts:8-21 | the store holds exactly what an unlimited log would, minus what the last clean-up found older than five minutes |
| ReplayStore.ReplayIff | apps/api/src/webhooks/webhook-security.ts:60-69 | a check is a replay if and only if the key's last acceptance survives the latest clean-up |
| ReplayStore.ReplayWindow | apps/api/src/webhooks/webhook-security.ts:60-69 | an event never let through is accepted; up to five minutes after its last acceptance an event is always a replay, from six minutes on never |
| ReplayStore.AcceptedFarApart | apps/api/src/webhooks/webhook-security.ts:60-69 | on any run one event is never let through twice within five minutes |
| ReplayStore.NothingOld | apps/api/src/webhooks/webhook-security.ts:13-21 | after every call no stored entry is six minutes old |
| ReplayStore.KeysAreApart | apps/api/src/webhooks/webhook-security.ts:62 | events of different channels or ids never share a key, when channels hold no colon |
| ReplayStore.Replays.CleanupReplayStore | apps/api/src/webhooks/webhook-security.ts:13-21 | the delete loop removes exactly the entries older than the window, at most once a minute |
| ReplayStore.Replays.IsReplayAttack | apps/api/src/webhooks/webhook-security.ts:60-69 | one check is one step of the store the theorems speak about |
| JobProtocol.RunKeepsSound | apps/api/src/jobs/jobs.service.ts:52-97 | under every interleaving of enqueues, worker, retries and crashes there is one lock row per organisation and key, no row disappears, and no run changes its job |
| JobProtocol.EnqueueIsLoneThread | apps/api/src/jobs/jobs.service.ts:44-101 | an enqueue nobody comes between does to the tables what the class's method does |
| JobProtocol.RetryingIsFinal | apps/worker/src/main.ts:110-131 | a run left in RETRYING keeps its row for good, whatever interleaves |
| JobProtocol.LostIsFinal | apps/api/src/jobs/bullmq.client.ts:36-43 | a run whose queue entry was refused or ignored stays QUEUED, with the same row, whatever interleaves |
| JobProtocol.LosesRun | apps/api/src/jobs/jobs.service.ts:97-151 | a push that fails, and a retry whose entry is ignored, lose the run in this sense |
| JobSpacing.ReachableFarApart | apps/api/src/jobs/jobs.service.ts:52-95 | while every lock write meets the TTL condition, no retry happens and callers of one key take turns: of two live runs of one organisation, key and type the later was created no earlier than the TTL after the earlier wrote its lock |
| JobSpacing.OneTypeFarApart | apps/api/src/jobs/jobs.service.ts:52-95 | the same over any run from an empty system in which every key belongs to one job type, nothing is retried and callers take turns: no TTL condition is left |
| JobOverlap.OverlappingEnqueuesIff | apps/api/src/jobs/jobs.service.ts:52-95 | two overlapping enqueues of one job that passed the check leave two live runs if and only if the lock row existed when each read it or the key has no organisation, in whatever order they write and whatever others do |
| JobOverlap.FirstUseHasOneWinner | apps/api/src/jobs/jobs.service.ts:75-83 | when both find an organisation's key unused exactly one ends with a run |
| JobOverlap.CreatedOnce | apps/api/prisma/schema.prisma:943-953 | a lock row of an organisation's key is created at most once over any run; a later attempt is refused and inserts no run |
| JobLimits.NextEnqueueIff | apps/api/src/jobs/jobs.service.ts:58-83 | the next enqueue of a job keeps live runs apart whenever it comes if and only if by the moment the lock frees every live run has had its TTL |
| JobLimits.SafeIffCovered | apps/api/src/jobs/jobs.service.ts:58-83 | the same in terms of the lock: every live run is covered or has had its time |
| JobLimits.SharedKeyIff | apps/api/src/jobs/jobs.service.ts:69-83 | after a run of another type moved the lock, the next enqueue of the first type keeps its live runs apart if and only if none of them needed the lock longer than its new end |
| JobLimits.SharedKeyBreaksSpacing | apps/api/src/jobs/jobs.service.ts:52-83 | with two types behind one key, two live runs of a 24-hour job can be a minute apart |
| JobLimits.YoungRunDeduplicates | apps/api/src/jobs/jobs.service.ts:58-66 | within the TTL of a live run's lock every further enqueue of the job is answered with a live run |
| JobLimits.RetryKeepsIff | apps/api/src/jobs/jobs.service.ts:134-151 | an administrator's retry keeps live runs apart if and only if no live run of the job lies within the TTL |
| JobLimits.StaleAnswer | apps/api/src/jobs/jobs.service.ts:58-66 | after a renewed run failed, an enqueue inside its TTL is answered with a run created before it, whose own TTL was over when the failed one was enqueued |
| JobAttempts.StatusFollowsDeliveries | apps/worker/src/main.ts:48-125 | in every reachable state a run's attempts are the deliveries since it was queued, and its status is QUEUED, RUNNING, or what the last one left: SUCCESS, RETRYING below the limit and FAILED from it on |
| JobAttempts.NeverFailed | apps/worker/src/main.ts:104-125 | without a redelivery no run is ever FAILED, a failed one stands in RETRYING, and an administrator's retry changes nothing |
| JobAttempts.RedeliveryCanFail | apps/worker/src/main.ts:104-125 | the condition is needed: a run with two attempts whose worker dies over it once is FAILED by the next failure |
| JobQueue.Jobs.Enqueue | apps/api/src/jobs/jobs.service.ts:44-101 | deduplicates exactly when the lock is held and a live run exists, and then answers with the newest such run; when the queue refuses the entry the call fails and the row stays QUEUED |
| JobQueue.EnqueueOutcome | apps/api/src/jobs/jobs.service.ts:44-101 | on the rows: nothing new while the key's lock is held and a run stands for the job; otherwise a queued run, and the lock held for the type's TTL from its write; without a key always a run and no lock |
| JobQueue.LimitsOfTypes | apps/api/src/jobs/jobs.service.ts:5-33 | the TTL and the attempts of every job type |
| JobQueue.Jobs.Start | apps/worker/src/main.ts:48-57 | takes a queue entry once, sets RUNNING and counts the attempt |
| JobQueue.Jobs.Finish | apps/worker/src/main.ts:104-125 | SUCCESS, or FAILED exactly when the attempts are used up, otherwise RETRYING |
| JobQueue.Jobs.Retry | apps/api/src/jobs/jobs.service.ts:134-151 | sets exactly the failed runs back to QUEUED with no attempts; `taken` says whether the queue takes the second entry of the job id or ignores it because it keeps the finished one |
| LeadRouting.EachOncePerRound | apps/api/src/meta/leadgen/lead-routing.service.ts:47-96 | any n consecutive assignments over n distinct members serve each member exactly once |
| LeadRouting.EvenShares | apps/api/src/meta/leadgen/lead-routing.service.ts:47-96 | after k assignments every member has floor(k / n) or ceil(k / n) of them |
| LeadRouting.ChoiceIsCurrent | apps/api/src/meta/leadgen/lead-routing.service.ts:70-79 | however the list changes, the choice is a member of its own call's list |
| LeadRouting.NobodyStarves | apps/api/src/meta/leadgen/lead-routing.service.ts:51-79 | while members only join, every member of the first list is served within as many calls as there are ever members |
| LeadRouting.ManagerForIs | apps/api/src/meta/leadgen/lead-routing.service.ts:17-44 | the configured owner while still a member, otherwise the oldest membership as owner or manager, and nobody exactly when there is none |
| LeadRouting.Routing.ResolveOwner | apps/api/src/meta/leadgen/lead-routing.service.ts:9-96 | the owner by strategy, always a member, and the stored cursor afterwards |
| Inbox.Reachable | apps/api/src/inbox/whatsapp-inbound.processor.ts:57-128 | in every reachable state a closed thread is not unreplied, `unreplied` holds exactly when `unrepliedSince` is set, an unassigned thread counts nothing, and no provider id is stored twice |
| Inbox.UnreadIsNewSince | apps/api/src/inbox/inbox.service.ts:241-254 | the unread counter of an assigned thread is the number of distinct inbound messages since the later of assignment and last read |
| Inbox.SameThreadIff | apps/api/src/inbox/whatsapp-inbound.processor.ts:49-75 | over any run, whatever else is done to the threads, two events that name an integration end in one thread if and only if phone and integration are equal |
| Inbox.OneThreadPerPair | apps/api/src/inbox/whatsapp-inbound.processor.ts:49-75 | there is never more than one thread for a phone and an integration |
| Inbox.OverlappingEventsSplitIff | apps/api/src/inbox/whatsapp-inbound.processor.ts:49-75 | two events of one phone and integration that both look before either writes leave two threads if and only if there was none: no index backs the rule |
| Inbox.ReceivedOutcome | apps/api/src/inbox/whatsapp-inbound.processor.ts:49-128 | what an event leaves row by row: the opened thread, the stored message, counter, waiting state and reopening, and no other thread touched |
| Inbox.OtherOutcome | apps/api/src/inbox/inbox.service.ts:175-398 | assigning, reading, changing the status and answering write one thing each, and only on their thread |
| Inbox.AssigneeWrittenOnce | apps/api/src/inbox/inbox.service.ts:175-237 | the assignee, once written, never changes |
| Inbox.WaitsUntilClosed | apps/api/src/inbox/inbox.service.ts:258-285 | an unreplied thread stays so, since the same moment, until someone closes it |
| Inbox.DuplicateOpensThreadIff | apps/api/src/inbox/whatsapp-inbound.processor.ts:49-85 | a repeated event stores no message, and still creates a thread exactly when none fits its phone and integration |
| Inbox.LateClaimOverwritesIff | apps/api/src/inbox/inbox.service.ts:215-237 | a claim that reads the thread and writes only after other calls takes it from its assignee if and only if the thread was free when read and the first of those calls to assign it named somebody else |
| Inbox.PromptClaim | apps/api/src/inbox/inbox.service.ts:215-237 | a claim that writes right after it read is the claim of the non-overlapping runs |
| Inbox.InboxService.Process | apps/api/src/inbox/whatsapp-inbound.processor.ts:30-197 | the message goes to a stored thread of its phone and integration, or to the new one exactly when there is none; the rest equals the specification |
| Inbox.InboxService.AssignTo | apps/api/src/inbox/inbox.service.ts:175-211 | a manager assigns an unassigned thread to a member, and nothing else changes |
| Inbox.InboxService.Claim | apps/api/src/inbox/inbox.service.ts:215-237 | succeeds exactly on unassigned threads |
| Inbox.InboxService.MarkRead | apps/api/src/inbox/inbox.service.ts:241-254 | clears the counter of a visible thread |
| Inbox.InboxService.ChangeStatus | apps/api/src/inbox/inbox.service.ts:258-285 | sets the status; closing also ends the waiting state |
| Inbox.InboxService.SendMessage | apps/api/src/inbox/inbox.service.ts:372-398 | adds an outbound message unless the thread is closed or its lead has opted out, and leaves the thread row alone |
| Onboarding.CompletedMeansAllSteps | apps/api/src/onboarding/onboarding.service.ts:192-222 | a completed wizard has had all steps but the collaborators completed, under any persona changes and step-backs, although the call looks at two flags; and that step too if the persona never was an independent agent |
| Onboarding.IndependentSkipsCollaborators | apps/api/src/onboarding/onboarding.service.ts:230-239 | an independent agent never stands at the collaborators step without stepping back to it |
| Onboarding.SkipMarksNothing | apps/api/src/onboarding/onboarding.service.ts:136-151 | completing a step marks that step only: the code that would mark the skipped collaborators never applies |
| Onboarding.CollaboratorsCanStayOpen | apps/api/src/onboarding/onboarding.service.ts:141-151 | a persona that changes midway completes the wizard with the collaborators step unmarked |
| Onboarding.CollaboratorsMissingIff | apps/api/src/onboarding/onboarding.service.ts:96-151 | a completed wizard lacks the collaborators step if and only if no completion of it was accepted and the row was not created for an independent agent; then an accepted call for an independent agent led past the profile |
| Onboarding.CollaboratorsMissingByPersona | apps/api/src/onboarding/onboarding.service.ts:96-151 | without step-backs it is missing if and only if the accepted call that led past the profile was for an independent agent and the creating call was not |
| Onboarding.CompletedStepWasChecked | apps/api/src/onboarding/onboarding.service.ts:119-164 | a completed step was completed by a call that found its requirement met |
| Onboarding.ProgressIsKept | apps/api/src/onboarding/onboarding.service.ts:166-222 | completed steps are never forgotten and a completed wizard stays completed |
| Onboarding.LateCompletionKeepsIff | apps/api/src/onboarding/onboarding.service.ts:120-161 | a completion that reads the row and writes only after other calls keeps what they completed if and only if that was nothing but its own step |
| Onboarding.AtDoneIff | apps/api/src/onboarding/onboarding.service.ts:166-222 | a completed wizard stands at DONE if and only if no step-back was accepted while it was completed |
| Onboarding.SteppedBackAfterCompletion | apps/api/src/onboarding/onboarding.service.ts:166-200 | a completed wizard stepped back never stands at DONE again |
| Onboarding.Wizard.Start | apps/api/src/onboarding/onboarding.service.ts:80-117 | creates the row at the first step the profile and persona call for, once |
| Onboarding.Wizard.CompleteStep | apps/api/src/onboarding/onboarding.service.ts:119-164 | accepts exactly the current step of an unfinished wizard whose requirement is met, and where it stands then |
| Onboarding.Wizard.StepBack | apps/api/src/onboarding/onboarding.service.ts:166-190 | goes back to exactly the earlier steps and forgets nothing |
| Onboarding.Wizard.Complete | apps/api/src/onboarding/onboarding.service.ts:192-222 | completes exactly when profile and first listing are marked completed |

## Left out

- The object store, Redis, BullMQ, Twilio, mail and Meta calls: only whether they return or fail, where a step depends on it. A worker that dies over an entry is the action `Stall`; that BullMQ limits such redeliveries is not modelled. Whether BullMQ takes a second entry of a job id it still keeps is the parameter `taken` of a retry.
- Roles, visibility, DTO validation, row-level security, auditing, logging and error texts: each is one branch; where a method needs the outcome it is a parameter.
- Several organisations at once: each model is one organisation's tables, except the job locks, whose key holds the organisation.
- `evaluateConditions`, reply counting and the contact regular expressions of the sequence tick: their outcome is an observation of the step.
- The counters the API tick returns.
- Tasks and notifications created as side effects of a sequence step, of an event or of a thread; auto-tasks and reminders of the calendar.
- The tick's query with its joined sequence, steps and template is one atomic read.
- The order of rows with equal due times, equal membership dates or several fitting threads: any choice is allowed where the query leaves it open, and the membership list is taken as given.
- JavaScript's lookup of inherited names in the template context (a placeholder such as `constructor`): the context is a map with its eleven variables.
- Cursor encoding (base64 of JSON), time zones, invalid dates and the 5000-row limit of the export.
- A lone CR in an exported cell is not quoted by the code; the reader here takes LF as record separator, so it is an ordinary character.
- Planning.RunKeepsValid: calls do not overlap in time, because each check and write are separate database calls; `OverlappingCreatesIff` says what overlapping creates do; overlapping updates are not modelled.
- StorageSessions.SessionUsedOnce: calls do not overlap in time, because the checks come before the transaction; `SecondUseIff` and `BothUseIff` say what overlapping does. The chain theorems hold for every interleaving.
- StorageOverlap.SecondUseIff: a transaction that fails between its statements is a crash before it, because it is rolled back; the copy in the object store is not part of this model.
- JobSpacing.ReachableFarApart: callers of one key take turns and no retry happens; `OverlappingEnqueuesIff` and `RetryKeepsIff` say what happens otherwise. The bound is from the earlier lock write to the later row, because an enqueue reads the clock three times.
- Inbox.AssigneeWrittenOnce: calls do not overlap in time, because `claim` and `assign` read before they write; `LateClaimOverwritesIff` says what overlapping does.
- Inbox.OneThreadPerPair: events do not overlap, because the thread is looked up before it is created; `OverlappingEventsSplitIff` says what overlapping does.
- LeadRouting.EachOncePerRound: the cursor is read and written in one call at a time, because two overlapping calls can read the same cursor.
- CsvExport.ExportReadsBack: ids, enums and timestamps are taken to hold no comma, quote or line feed, because the code prints these columns unescaped; `ExportReadsBackIff` shows that exactly this is needed.
- JobLimits.RetryKeepsIff: the TTL condition is about live runs at the moment of the retry, because a retry takes no lock.
- Onboarding.ProgressIsKept: calls do not overlap in time, because `completeStep` overwrites the completed steps it read earlier; `LateCompletionKeepsIff` says what overlapping does. The same holds for the other theorems about whole wizard runs.
- RateLimit.CapIsReached: for more windows than a window has milliseconds the bound is not shown to be reached, because successive windows start at least one millisecond late.
- SequenceStarvation.StarvedForever: nobody else writes to the tables in the meantime.
