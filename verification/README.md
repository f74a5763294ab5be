# MailManager, verified

MailManager keeps a local mirror of remote mail accounts and sends mail for them. Its value lies in
protocols that stay right under concurrency, crashes and partial failure: the sync scheduler, the
mirror of a folder, the outbox, mail operations, conversation summaries, the event stream and the
updater. Around them sit algorithms with a theorem each: threading by union-find, the search tokenizer,
the sliding-window limiter, the HTML image placeholders and a chunked search.

This project models that logic in Dafny 4.11 and proves properties of it over all inputs and all runs.
`dafny verify dfyconfig.toml` checks everything.

## How the model is built

- **Protocols are transition systems.** A state is a value, a step is one section under a mutex, one
  channel operation, one database transaction or one call to a server, and any enabled step may come
  next. A run is any sequence of enabled steps. Crashes, failing calls, failing commits, expunges and
  appends by others are steps like any other. The properties are about every state of every run.
- **What the source updates in place is a class.** `Runtime`, `Mailroom`, `IngestStore`, `Operations`,
  `MailStore`, `Hub`, `Updater`, `Walker` and `Limiter` have the fields of the source and change them
  statement by statement. Each method is proved to do what the function of the same step says, and the
  runs are built from those functions. Loops of the source are loops here, with invariants.
- **Outcomes are oracles.** What a server, a disk, a clock or a service answers is a parameter: an SMTP
  dialogue, the replies to the calls of an attempt, the reads of a file, the time of a call.
- **What a step computes is told twice.** The function of a step says how the state changes; lemmas about it,
  over runs where the step needs them, say what that means in plain terms: kinds, folders, columns, times,
  tags. So the meaning of a method does not rest on the function it is proved against alone.
- **Records of what happened** (`History`, `Log`, `accepted`, `history`, `trusted`) are kept beside the
  state and no step looks at them; the properties compare the state with them.

| files | what they model |
|---|---|
| SyncQueues, SyncScheduler, SyncOwnership, SyncGuarantees, SyncRequests | the sync scheduler: deduplication, two bounded queues, slots, parking, reruns, retries; its promises by the work that was asked for |
| FolderStore, FolderMirror, FolderProgress | the mirror of one folder: checkpoints, incremental passes, reconciles, history; what passes fetch and record |
| Smtp, OutboxStore, OutboxProtocol, OutboxAnswers | drafts, the outbox and delivery; what the user is told |
| OperationStore, OperationAttempt, OperationProtocol, OperationTiming | mail operations: grouping, the calls of an attempt, outcomes; the undo window and the order of claims |
| Conversations, ConversationRuns, ConversationStore, ConversationFacts | conversation summaries under every transaction that changes messages; what each transaction does to the tables |
| EventHub, EventStream, EventFacts | the event hub, and what its clients receive |
| UpdaterSteps, UpdaterProtocol, UpdaterOutcomes, Updater, MarkerSearch | installing a release, rolling back, and finding the marker in a candidate |
| UnionFind, Threading, ThreadIdentifiers | threads of messages, and which identifiers are the same |
| HtmlText, ImagePlaceholders, Sanitizer, SanitizerFacts | the HTML sanitizer and its image placeholders; what survives it and what does not |
| Tokenizer, TokenizerFacts, RateLimiter | search tokens and the MATCH expression; the limiter of failed sign-ins |
| Options, Ordering, Sequences, Strings | an optional value; strict orders, sorting and insertion; the last elements of a sequence; white space and trimming |

## Where the code does less than one might expect

Six properties do not hold of every run. Each is stated with the exact condition under which it holds,
and with what goes wrong otherwise.

- **A request can be forgotten, and a failing job silenced.** `enqueueSync` drops the pending entry when
  its own dispatch fails, whatever was added to the entry meanwhile. `DropLosesExactly`: a step of a live
  runtime loses an accepted request exactly when it is such a drop, by a caller with a context of its own, and
  the entry has `rerun` set.
  `DropSilencesExactly`: it leaves a failing key without entry and retry exactly when no timer of the key is
  armed. `RequestsAreMet` and `FailingJobRemembered` hold over all runs whose drops of the key are of the
  other kind, and `OneDropLosesBoth` is a run in which one drop does both.
- **A draft can be delivered twice** if a new outbox row does not sort after the older rows of its draft.
  Row IDs are random within one millisecond, so two rows created in the same millisecond can sort either
  way. `AtMostOnceDelivery` holds for runs in which an inserted row sorts last, `LaterClockSortsLast` says
  that a clock that has moved on is enough, `OutOfOrderRowCanDeliverTwice` that the condition is exact, from
  every reachable state, and `DraftIsDeliveredTwice` is a whole run.
- **A first pass can skip mail** if it read the checkpoint before the folder was prepared, but the clock
  only when mail was already waiting between the first window and its own. `CheckpointNeverSkips` holds for
  runs without such a read (`TimelyRun`), `TimelyIsExact` says that the condition is exact for first passes
  of either kind, `EarlyIsTimely` that a read before the folder is prepared is always timely, and `MailIsLost`
  is a run in which the message is never fetched, as the history is complete.
- **A change of UIDVALIDITY keeps the old last UID** when it is larger: `RebuildTakesNewCheckpoint`. From
  every reachable state with a last UID, `RebuildHidesMail` gets to a message that no later pass stores, unless
  a history pass is still due; `MailIsHidden` is a whole run. The other properties of the mirror are inside one generation.
- **A summary can become wrong** after a move whose new place the server did not report: the message is
  nowhere until it is fetched again, and a cleanup that comes first deletes it without refreshing its
  conversation. `SummariesAlwaysAgree` holds over all runs whose cleanups and permanent deletes find their
  orphans covered, `CoverageIsExact` says that any other transaction makes a summary wrong, and
  `FetchedAgainIsCovered` that the ordinary case is covered. `UnreportedMoveBreaks` gives a family of states
  that are not, and `UnreportedMoveBreaksSummaries` a run.
- **A rollback after the marker was rewritten** has a window between restoring the binary and restoring
  the marker. `AlwaysRecoverable` holds outside the window, `WindowDecides` says what closes it,
  `PromptRunsAreRecoverable` that it opens only when the report of a finished update cannot be written,
  `WindowIsReachable` that every idle updater can get there, and `InstallationIsLost` is the first update of
  a fresh installation.

## What is assumed of the outside

- A transaction is one atomic step: it commits as a whole, or reports an error and changes nothing.
- A mailbox obeys the UID rules of section 2.3.1.1 of RFC 9051. A fetch returns every message asked for
  that is still there. Mail that arrives is dated inside the initial window of 90 days.
- An SMTP server owns a message exactly when it answered the end of the data positively, or took it before
  the connection was lost (section 4.1.1.4 of RFC 5321).
- Identifiers are numbers, and 0 is the empty one, except where their text matters (threading, location groups). Keys made of several parts are tuples, except the
  key of a location group, whose text is shown to be unambiguous. Boot IDs of the event hub are not reused.
- The lower case of a character is what the Unicode tables say; threading holds for any such table.
- A URL in normal form is its own normal form. Rendering a sanitized tree and parsing it again gives the
  tree back. White space is a boundary for the tokenizer, in lower case too.
- The limiter's clock does not go back.
- A call of the updater that reports an error changed nothing on disk; its files are replaced by renaming.
- The rows that a flag or move operation works on still belong to the conversations they were read with.

## Model

| member | source | states |
|---|---|---|
| `SyncQueues.Runtime.AdmitJob` | internal/mailruntime/sync.go:51-64 | an invalid job changes nothing and is refused; a pending key is joined, with the newest job and `rerun` set; otherwise the key becomes pending |
| `SyncQueues.KeysTellWork` | internal/mailruntime/sync.go:20-33 | two requests share a key exactly when kind and account agree and, unless it is a discovery, the folder does |
| `SyncQueues.Runtime.TrySendJob` | internal/mailruntime/sync.go:78-87 | the job goes to the back of the queue of its tier, or nothing changes when that queue is full |
| `SyncQueues.Runtime.DropPendingSync` | internal/mailruntime/sync.go:113-117 | the key is no longer pending; nothing else changes |
| `SyncQueues.Runtime.AcquireSyncSlot` | internal/mailruntime/sync.go:202-210 | taking the slot and parking behind its holder are one decision; exactly one of the two happens |
| `SyncQueues.Runtime.UnlockSlot` | internal/mailruntime/sync.go:212-213 | only the slot of this tier and account becomes free |
| `SyncQueues.Runtime.PopNext` | internal/mailruntime/sync.go:214-226 | the longest parked job of the slot leaves the list, and an emptied list leaves the map |
| `SyncQueues.Runtime.FinishSyncJob` | internal/mailruntime/sync.go:161-194 | counts failures, and either clears `rerun` and hands out the newest job, or removes the key and says whether a retry is due |
| `SyncOwnership.JobOwnership` | internal/mailruntime/sync.go:51-253 | in every reachable state a key is pending exactly when one token of it exists, at one place only; no queue or waiting list holds a key twice; a slot is held exactly when one worker runs a job of it |
| `SyncOwnership.FinishKeeps` | internal/mailruntime/sync.go:155-180 | a worker that finishes a job always finds the pending entry of its key, and finishing keeps ownership |
| `SyncGuarantees.NoStrandedParkedJob` | internal/mailruntime/sync.go:197-237 | while the runtime is live, a parked job has its slot held, a holder about to pop, or a token of the slot on its way to take it |
| `SyncGuarantees.RestLeavesNothing` | internal/mailruntime/sync.go:128-253 | when a live runtime is at rest, no key is pending, nothing is parked and no slot is held |
| `SyncGuarantees.Freshness` | internal/mailruntime/sync.go:51-72 | after the last accepted request of a key, a run of the key began, or is owed by a token that has not begun, or `rerun` is set on the running one, or the entry was dropped later |
| `SyncGuarantees.DropLosesExactly` | internal/mailruntime/sync.go:63-71 | in every state a live runtime reaches, a step loses an accepted request exactly when it is the drop by an enqueue caller that gave up on a full queue, which has a context of its own, and the dropped entry has `rerun` set |
| `SyncGuarantees.RequestsAreMet` | internal/mailruntime/sync.go:51-195 | over all live runs whose drops of a key find `rerun` unset, the last accepted request of the key is followed by a run, or one is owed or will follow |
| `SyncGuarantees.DropSilencesExactly` | internal/mailruntime/sync.go:155-195 | in every state a live runtime reaches, a step leaves a failing key with neither entry nor retry exactly when it is such a drop and no retry of the key is armed |
| `SyncGuarantees.FailingJobRemembered` | internal/mailruntime/sync.go:155-195 | over all live runs whose drops of a key find it without failures or with its retry armed, a key with counted failures is pending or its retry is armed, unless it was not found |
| `SyncGuarantees.OneDropLosesBoth` | internal/mailruntime/sync.go:63-71 | a live run in which a job fails, its retry and another caller join the entry of a caller whose context then expires, and the drop forgets the request and silences the job |
| `SyncRequests.RequestsJoinTheirWork` | internal/mailruntime/sync.go:55-64 | in every reachable state a request joins the pending entry for the same kind, account and folder, which is then run again with the newest job; no other entry changes, and without such an entry one is made and dispatched |
| `SyncRequests.EntryNamesItsWork` | internal/mailruntime/sync.go:20-64 | in all reachable states the jobs of one entry ask for the same work, and those of two entries for different work |
| `SyncRequests.WorkIsCarriedOnce` | internal/mailruntime/sync.go:51-253 | each pending piece of work is carried by a job at one place and no other place carries the same work |
| `SyncRequests.RequestedWorkIsFresh` | internal/mailruntime/sync.go:51-195 | after the last accepted request for a piece of work, a run of that very work began, or a job for it is on its way, or it is being run and will be run again, or its entry was dropped later |
| `SyncRequests.RequestedWorkIsRun` | internal/mailruntime/sync.go:51-195 | the same without the drop, over all live runs whose drops of that work find `rerun` unset |
| `SyncRequests.HistoryIsExact` | internal/mailruntime/sync.go:51-153 | a request is noted as accepted exactly when it joins an entry, is queued, or is left to a dispatcher, and a body as begun exactly when its worker finds the slot free |
| `SyncRequests.LongWorkStaysApart` | internal/mailruntime/sync.go:78-87 | backfills and reconciles are queued, parked and run apart from all other jobs, and each account runs at most one long and one quick job, exactly while the slot is held |
| `SyncRequests.FailuresAreCounted` | internal/mailruntime/sync.go:161-168 | over every run the counter of a job is the number of its failures since its last success |
| `SyncRequests.BookingDecides` | internal/mailruntime/sync.go:161-194 | the worker that books a run goes on with the newest job asked for, or lets the entry go and arms a retry exactly when the run failed otherwise than by not finding its target |
| `SyncRequests.NothingPlacedAfterCancel` | internal/mailruntime/sync.go:89-111 | in a cancelled runtime a job that finds the queue full, or is about to be handed over, is given up |
| `Smtp.SendStatus` | internal/connectors/smtp.go:142-186 | sent is reported only when the server took the message, failed only when it did not, unknown exactly when the client cannot tell |
| `Smtp.Send` | internal/connectors/smtp.go:142-178 | the stage loop reports that status, with the stage that decided it |
| `OutboxStore.Mailroom.LatestRow` | internal/repository/drafts.go:162-165 | finds the row of the draft that sorts last by creation time and ID, if there is one |
| `OutboxStore.Mailroom.QueueDraft` | internal/repository/drafts.go:152-190 | the latest row decides: queued is returned again, sending, sent and unknown are refused, failed or none lets a new row in |
| `OutboxAnswers.AnswerFollowsLastRow` | internal/repository/drafts.go:152-190 | not found exactly without the draft, the row exactly when the last one is queued, a conflict exactly when the last one is sending, sent or unknown, a new queued row otherwise; only that changes anything |
| `OutboxAnswers.AnsweredRowWaits` | internal/repository/drafts.go:152-190 | over all runs the row that a request is answered with is the draft's, is queued, and was not accepted by the server |
| `OutboxAnswers.AcceptedDraftIsRefused` | internal/repository/drafts.go:166-173 | over runs whose inserted rows sort last, a draft that the server accepted is answered with a conflict as long as it is there, and not found after that, and nothing changes |
| `OutboxStore.Mailroom.DeleteDraft` | internal/repository/drafts.go:142-150 | the draft goes, and its rows keep their state without the reference |
| `OutboxStore.Mailroom.ClaimOutbox` | internal/mailruntime/outbox.go:64-102 | claims the queued row that is due and sorts first, or says that none is due |
| `OutboxStore.Mailroom.FinishOutbox` | internal/mailruntime/outbox.go:257-279 | records a final state, but only for a row that is still sending |
| `OutboxStore.Mailroom.MarkOutboxSent` | internal/mailruntime/outbox.go:281-297 | a row still sending becomes sent and its draft is deleted, unless the draft moved to another account |
| `OutboxStore.Mailroom.RecoverInFlight` | internal/mailruntime/operations.go:722-727 | on start every row in flight becomes unknown, and no other changes |
| `OutboxProtocol.FailedIsNotAccepted` | internal/mailruntime/outbox.go:104-168 | over all runs, in whatever order rows are inserted, a failed row was not accepted by the server and no row is accepted twice |
| `OutboxProtocol.AtMostOnceDelivery` | internal/mailruntime/outbox.go:104-168 | over all runs with crashes, failing commits and repeated requests, in which an inserted row sorts last, the server accepts each draft at most once, every row but the newest has failed, and failed means not accepted |
| `OutboxProtocol.LaterClockSortsLast` | internal/repository/drafts.go:178-183 | a clock that has moved on since the newest row of the draft makes the new row sort last |
| `OutboxProtocol.OutOfOrderRowCanDeliverTwice` | internal/repository/drafts.go:162-183 | the condition is exact: in whatever reachable state a row is inserted that does not sort last, some continuation makes the server accept the draft twice |
| `OutboxProtocol.DraftIsDeliveredTwice` | internal/repository/drafts.go:178-183 | a run from the start in which the second row of a draft, created in the same millisecond, gets a smaller ID, and the draft is accepted twice |
| `OutboxAnswers.AttemptIsReported` | internal/mailruntime/outbox.go:104-168 | what is about to be recorded after an attempt, by where the dialogue ended, and what the server took is noted |
| `OutboxAnswers.ClaimGoesOn` | internal/mailruntime/outbox.go:64-102 | a claimed row goes on with its own draft and account; one whose draft is gone ends as failed |
| `OutboxAnswers.StateTellsAcceptance` | internal/mailruntime/outbox.go:104-168 | over all runs a row that is said to be sent was accepted, and a queued or failed one was not |
| `OutboxAnswers.RecordedDeliveryEndsDraft` | internal/mailruntime/outbox.go:281-297 | in any run a recorded delivery makes the row sent and deletes the draft unless it was moved to another account; no other draft and no state of another row changes |
| `OutboxAnswers.DeletionDetaches` | internal/repository/drafts.go:142-150 | in any run a deletion takes exactly this draft, and exactly its rows lose it |
| `FolderStore.ValidateFolderSnapshot` | internal/ingeststore/store.go:349-388 | a snapshot is applied exactly when its UIDs are distinct, non-zero and within the limit, and its states match them one to one |
| `FolderStore.CollectUids` | internal/ingeststore/store.go:362-371 | the UIDs as a set, exactly when they are distinct and non-zero |
| `FolderStore.StatesMatch` | internal/ingeststore/store.go:372-388 | true exactly when the states are those of the UIDs, each once |
| `FolderStore.FreshUids` | internal/sync/ingest.go:162-168 | keeps exactly the probed UIDs from the first one asked for on, and returns the highest of them |
| `FolderStore.Batches` | internal/sync/ingest.go:413-425 | the batches are non-empty, within the size, and give the UIDs back when put together |
| `FolderStore.IngestStore.PrepareFolder` | internal/ingeststore/store.go:212-241 | a rebuild forgets the rows; the observed UIDVALIDITY is recorded and the last UID is left as it was |
| `FolderStore.IngestStore.StoreMessage` | internal/ingeststore/store.go:493-496 | a location needs a UID and a UIDVALIDITY; it is added once |
| `FolderStore.IngestStore.ReconcileFolder` | internal/ingeststore/store.go:328-336 | deletes exactly the rows of another generation and those below UIDNEXT that the snapshot lacks |
| `FolderStore.IngestStore.CompleteFolder` | internal/ingeststore/store.go:458-484 | within one generation the last UID is the larger of old and new |
| `FolderMirror.CheckpointNeverSkips` | internal/sync/ingest.go:140-220 | wherever the passes stand and whichever failed, a message on the server at or below the last UID is stored, or older than the first window with the history still to be fetched, if the first passes read their clocks in time |
| `FolderMirror.LastUidNeverDecreases` | internal/ingeststore/store.go:458-484 | between any two moments of any run the last UID does not decrease |
| `FolderMirror.ReconcileIsExact` | internal/sync/ingest.go:394-433 | in any run, a reconcile removes a stored row exactly when it is below UIDNEXT and was expunged at the search; no message on the server loses its row |
| `FolderMirror.NoLiveRowRemoved` | internal/ingeststore/store.go:244-347 | in any run, no step of any pass removes the row of a message that is still on the server |
| `FolderMirror.NothingMissingAfterHistory` | internal/sync/ingest.go:233-260 | once the history is complete, every message at or below the last UID that is on the server is stored |
| `FolderMirror.TimelyIsExact` | internal/mailruntime/sync.go:362-374 | the condition is exact: a first pass, full or incremental, that reads its clock can go on to skip mail exactly when some message not stored yet lies between the first window and its own |
| `FolderMirror.EarlyIsTimely` | internal/mailruntime/sync.go:362-374 | reading the clock before the folder is prepared, or before the window has moved on, is in time |
| `FolderMirror.MailIsLost` | internal/mailruntime/sync.go:362-374 | a run with one late read after which a message below the last UID is not stored and the history is complete |
| `FolderMirror.RebuildTakesNewCheckpoint` | internal/ingeststore/store.go:236-239 | after a change of UIDVALIDITY the new last UID is recorded exactly when the old one was not larger |
| `FolderMirror.RebuildHidesMail` | internal/ingeststore/store.go:465-465 | from every reachable state with a last UID, a change of UIDVALIDITY and a rebuild can lead to a recent message that every later probe starts above, and that no run without history passes stores |
| `FolderMirror.MailIsHidden` | internal/ingeststore/store.go:465-465 | a whole run in which that happens |
| `FolderProgress.SearchesWhatIsLeft` | internal/sync/ingest.go:140-168 | in any run a pass asks for exactly the part its checkpoint and clock leave: above the last UID, or inside or outside the 90 days; beyond the search limit an incremental search gets the lowest UIDs and the others fail |
| `FolderProgress.PassAdvances` | internal/sync/ingest.go:202-215 | whatever runs in between, when a pass completes the last UID is at or above every UID its search answered; it is the one before or an answered one, or for a first pass UIDNEXT less one |
| `FolderProgress.LonePassAdvances` | internal/sync/ingest.go:202-215 | when no other pass completes meanwhile, an incremental pass leaves the last UID it found or one of those it fetched |
| `FolderProgress.NothingFetchedTwice` | internal/sync/ingest.go:140-215 | no pass that begins after a completed one is answered a UID of it, except the largest 32-bit UID |
| `FolderProgress.AnsweredIsStored` | internal/sync/ingest.go:140-171 | in any run, when a pass is about to complete, every message its search answered is stored or was expunged |
| `FolderProgress.OnlyCompletionRecords` | internal/ingeststore/store.go:458-484 | in any run only a completion moves the last UID, and only a completed history pass ends the wait for the history |
| `FolderProgress.FullPassReconciles` | internal/sync/ingest.go:394-433 | a full pass enumerates after it has stored, reads the states of all it saw and reconciles with them; beyond the search limit it completes without, and no other pass enumerates |
| `OperationStore.Operations.CreateOperation` | internal/repository/operations.go:42-55 | archive and trash wait for the undo window and can be undone until then; the others may run at once |
| `OperationTiming.WindowIsFiveSeconds` | internal/repository/operations.go:42-55 | at any later time an operation can be claimed exactly when it is queued and, for an archive or trash, five seconds have passed since its creation; it can be undone exactly when it is such a one, queued, readable and they have not |
| `OperationTiming.ClaimedInTime` | internal/mailruntime/operations.go:107-133 | in any run an archive or trash is claimed only five seconds after its creation or later, any other kind from its creation on |
| `OperationTiming.UndoInTimeSucceeds` | internal/repository/operations.go:111-147 | over every run on a clock that does not go back, an archive or trash that was not undone and that no rebuild took can be undone until its five seconds have passed, and nothing is then written for it |
| `OperationStore.Operations.UndoOperation` | internal/repository/operations.go:111-147 | cancels exactly a queued operation inside its undo window |
| `OperationStore.Operations.ClaimOperation` | internal/mailruntime/operations.go:107-133 | claims the ready operation that sorts first, or says that none is ready |
| `OperationTiming.ClaimsInOrder` | internal/mailruntime/operations.go:107-115 | of the ready operations the one that became ready first is claimed, then the one created first, then the one with the smaller identifier; no other row changes |
| `OperationTiming.ClaimGoesOn` | internal/mailruntime/operations.go:103-140 | a claimed operation is prepared; one whose payload cannot be read is closed as failed |
| `OperationStore.Operations.FinishOperation` | internal/mailruntime/operations.go:615-636 | sets the status of an operation that is still running, and reports whether it was |
| `OperationStore.Operations.RecoverInFlight` | internal/mailruntime/operations.go:714-720 | on start every running operation becomes unknown, and no other changes |
| `OperationStore.Operations.InterruptPending` | internal/ingeststore/store.go:230-234 | a rebuild turns exactly the listed operations that are queued or running into ones that need attention |
| `OperationAttempt.KeyTellsMailbox` | internal/mailruntime/operations.go:476-476 | the text used as group key tells folder and UIDVALIDITY apart |
| `OperationAttempt.GroupLocations` | internal/mailruntime/operations.go:472-489 | every location is in exactly one group, groups are the mailboxes, each in ascending UIDs |
| `OperationAttempt.GroupsAreAscending` | internal/mailruntime/operations.go:472-489 | a group lists locations of one folder and UIDVALIDITY by ascending UID |
| `OperationAttempt.ApplyGroups` | internal/mailruntime/operations.go:277-294 | the group loop is the run of the per-call transition over the answers it gets, makes exactly the calls of that run, and always ends |
| `OperationAttempt.EachLocationOnce` | internal/mailruntime/operations.go:266-378 | whatever the answers, an attempt changes selected locations only, each in its own mailbox and none twice; one that succeeds changes every one |
| `OperationProtocol.NothingWrittenWhenFailed` | internal/mailruntime/operations.go:142-171 | a failed or cancelled operation made no call that changes the mailbox |
| `OperationProtocol.SucceededMeansDone` | internal/mailruntime/operations.go:266-378 | a succeeded operation changed every selected group on the server and committed it locally |
| `OperationProtocol.UnknownIsJustified` | internal/mailruntime/operations.go:380-394 | unknown is recorded only when something was written, the process crashed in it, or its end could not be saved |
| `OperationProtocol.ConvergenceIsRequested` | internal/mailruntime/operations.go:142-181 | whatever wrote requests a convergence sync, unless a crash cut it off or the runtime was shutting down and refused it |
| `OperationProtocol.StatusNeverGoesBack` | internal/mailruntime/operations.go:598-637 | no status goes back and a terminal one never changes, so no operation runs twice |
| `OperationProtocol.UndoneIsNeverRun` | internal/repository/operations.go:111-161 | an operation that was undone is never run at any later time |
| `OperationTiming.FailingCallDecides` | internal/mailruntime/operations.go:380-405 | in any run a failing call ends the operation: it needs attention when the UIDVALIDITY had changed, is unknown and asks for a sync when a change may have reached the server, and has failed otherwise |
| `OperationTiming.FailingCompletionDecides` | internal/mailruntime/operations.go:598-613 | the completing transaction succeeds exactly while the row is running, and otherwise leaves it and the outcome unknown, or failed when there was nothing to change |
| `OperationTiming.StoppedIsSaved` | internal/mailruntime/operations.go:142-171 | the saved row of an attempt that stopped says what its error says, unless a rebuild took it |
| `OperationTiming.ConcludingAsksForSync` | internal/mailruntime/operations.go:142-181 | an attempt that is over asks for the sync it wants, and is refused exactly when the runtime is shutting down |
| `OperationTiming.AnswersAreRecorded` | internal/mailruntime/operations.go:266-378 | the record the outcomes are judged by holds the changing calls made, the groups the server reported changed and those committed, and nothing else |
| `UnionFind.Find` | internal/mailstore/threading.go:88-94 | returns the root of the element and terminates; path halving changes no root |
| `UnionFind.Union` | internal/mailstore/threading.go:96-101 | merges the two sets and touches no other |
| `UnionFind.HalvingKeepsForest` | internal/mailstore/threading.go:89-92 | linking an element to its grandparent keeps every root and moves it nearer |
| `Threading.GroupThreads` | internal/mailstore/threading.go:24-75 | refuses the first message without identity or with a repeated local ID; otherwise returns exactly the threads |
| `Threading.UniteByMessageId` | internal/mailstore/threading.go:25-45 | after the first pass sets hold connected messages only, and equal Message-IDs share a set |
| `Threading.FollowMentions` | internal/mailstore/threading.go:46-52 | after the second pass every mention of a known identifier was followed |
| `Threading.Gather` | internal/mailstore/threading.go:53-62 | each set is gathered under its root, every member once |
| `Threading.ConnectedShareRoot` | internal/mailstore/threading.go:46-52 | connected messages are in one set: no thread is split |
| `Threading.SharingAGroupIsConnection` | internal/mailstore/threading.go:22-23 | two messages share a group exactly when they are connected by identifiers within one account |
| `Threading.ThreadListingIsUnique` | internal/mailstore/threading.go:63-74 | the threads have one listing, so the order in which the map is walked does not matter |
| `Threading.OrderDoesNotMatter` | internal/mailstore/threading.go:24-75 | the same messages in another order give the same groups, or are refused too |
| `ThreadIdentifiers.SpellingsAgree` | internal/mailstore/threading.go:77-79 | white space around an identifier, brackets inside that and the case of letters do not matter; everything else does |
| `ThreadIdentifiers.AnswersJoin` | internal/mailstore/threading.go:46-52 | a message that answers or refers to another one of its account, in any spelling, shares its group |
| `ThreadIdentifiers.CopiesJoin` | internal/mailstore/threading.go:36-44 | two messages of one account with the same identifier share a group |
| `ThreadIdentifiers.ListedInOrder` | internal/mailstore/threading.go:63-74 | groups are listed by account and then by their first message, compared character by character |
| `Conversations.StoringKeepsSummaries` | internal/ingeststore/store.go:439-456 | storing a batch keeps every summary equal to its recomputation |
| `Conversations.CleanupIsRightExactly` | internal/ingeststore/store.go:416-437 | cleanup and refresh leave every summary right exactly when no other conversation loses a message and survives |
| `Conversations.ReconcileIsRightExactly` | internal/ingeststore/store.go:297-346 | a reconcile leaves every summary right exactly when each conversation it does not refresh has no message without a place, or none with one |
| `Conversations.RebuildIsRightExactly` | internal/ingeststore/store.go:212-242 | the same for the rebuild of a folder |
| `Conversations.LatestIsUnique` | internal/ingeststore/store.go:745-758 | a conversation with messages has exactly one latest message by time and ID |
| `ConversationFacts.AgreementTells` | internal/ingeststore/store.go:745-758 | a summary is right exactly when its counts, its star and the subject, preview and time of the newest message are those of its messages |
| `ConversationFacts.ArrivalIsStored` | internal/ingeststore/store.go:493-713 | after an arrival its place is stored with a message that has its flags; no other message and no other place has changed |
| `ConversationFacts.ReconciledRows` | internal/ingeststore/store.go:297-336 | after a reconcile the rows are those the snapshot does not prove gone, with the flags it shows |
| `ConversationFacts.ReconciledMessages` | internal/ingeststore/store.go:297-346 | after a reconcile a message of the account is there exactly when it has a place; its flags are those shown for its rows, or its own when none is shown |
| `ConversationFacts.RebuiltTables` | internal/ingeststore/store.go:212-242 | a rebuild forgets the rows of the folder and no other, and the messages that are nowhere then |
| `ConversationRuns.FlaggingKeepsSummaries` | internal/mailruntime/operations.go:522-546 | a flag operation that refreshes the conversations of its targets keeps every summary right |
| `ConversationFacts.FlaggingSetsColumn` | internal/mailruntime/operations.go:529-541 | every target of the account has the named column set to the value; its other columns, all other messages and all places are as before |
| `ConversationFacts.StarringShows` | internal/mailruntime/operations.go:522-546 | starring a message stars its conversation and leaves both counts alone |
| `ConversationFacts.UnstarringShows` | internal/mailruntime/operations.go:522-546 | unstarring leaves a conversation starred exactly when a message outside the targets has a star |
| `ConversationFacts.ReadingCounts` | internal/mailruntime/operations.go:522-546 | reading takes exactly the unseen targets off the unread count and leaves message count and star alone |
| `ConversationFacts.ReadingOneCountsOne` | internal/mailruntime/operations.go:522-546 | reading one unseen message lowers the unread count of its conversation by one |
| `ConversationFacts.ReadingAllLeavesNone` | internal/mailruntime/operations.go:522-546 | reading all messages of a conversation leaves nothing unread |
| `ConversationRuns.MovingKeepsSummaries` | internal/mailruntime/operations.go:548-580 | moving rows changes no summary, whether or not the new place is known |
| `ConversationRuns.PurgingIsRightExactly` | internal/mailruntime/operations.go:576-594 | a permanent delete leaves every summary right exactly when it refreshes the conversations it deletes from |
| `ConversationFacts.LastMoveDecides` | internal/mailruntime/operations.go:552-574 | the last move that concerns a place decides it: the row is there with its message and flags, or nothing is |
| `ConversationFacts.MovedTables` | internal/mailruntime/operations.go:576-594 | a move leaves every message; a permanent delete takes exactly the targets of the account that are nowhere |
| `ConversationRuns.SummariesAlwaysAgree` | internal/ingeststore/store.go:416-456 | over all runs in which every cleanup finds the orphans in conversations it refreshes or that lose every message, and every permanent delete refreshes what it takes from, every summary equals its recomputation |
| `ConversationRuns.CoverageIsExact` | internal/ingeststore/store.go:416-456 | the condition is exact: after any such run, the next transaction leaves every summary right exactly when it finds this too |
| `ConversationRuns.TrackedMovesAreCovered` | internal/mailruntime/operations.go:548-580 | runs in which moves leave every message somewhere are such runs, and no message is ever nowhere |
| `ConversationRuns.FetchedAgainIsCovered` | internal/ingeststore/store.go:493-713 | an unreported move whose message is fetched again before the next cleanup is covered, and all is in order afterwards |
| `ConversationRuns.UnreportedMoveBreaks` | internal/mailruntime/operations.go:554-574 | a message moved without a reported place, out of a conversation with another one: the next reconcile of the account leaves the summary wrong |
| `ConversationRuns.UnreportedMoveBreaksSummaries` | internal/mailruntime/operations.go:554-574 | a concrete run in which that happens |
| `ConversationStore.MailStore.RefreshConversation` | internal/ingeststore/store.go:745-758 | recomputes one summary and changes no other |
| `ConversationStore.MailStore.CleanupOrphanMessages` | internal/ingeststore/store.go:416-437 | deletes the messages of the account that are nowhere and its conversations without a message |
| `ConversationStore.MailStore.StoreMessages` | internal/ingeststore/store.go:439-456 | stores the batch and refreshes what it touched |
| `ConversationStore.MailStore.StoreMessage` | internal/ingeststore/store.go:493-713 | applies one arrival to the tables and returns its conversation |
| `ConversationStore.MailStore.CompareAll` | internal/ingeststore/store.go:298-323 | takes over changed flags row by row and collects the conversations affected |
| `ConversationStore.MailStore.ReconcileFolder` | internal/ingeststore/store.go:297-346 | compare, delete, clean up and refresh, as one transaction |
| `ConversationStore.MailStore.RebuildFolder` | internal/ingeststore/store.go:212-229 | forgets the folder, cleans up and refreshes |
| `ConversationStore.MailStore.CompleteFlagOperation` | internal/mailruntime/operations.go:522-546 | sets the column of the targets and refreshes |
| `ConversationStore.MailStore.CommitMoveProgress` | internal/mailruntime/operations.go:548-596 | moves the rows in order, purges and refreshes |
| `EventHub.Hub.PublishEvent` | internal/events/hub.go:44-64 | numbers the event, keeps the most recent ones, and hands it to the subscribers with room |
| `EventHub.Hub.Offer` | internal/events/hub.go:55-62 | every subscriber with room gets the event once; exactly those without are dropped |
| `EventHub.Hub.ReplayFrom` | internal/events/hub.go:85-95 | the events after the one with this ID, or not found |
| `EventHub.Hub.SubscribeAfter` | internal/events/hub.go:66-83 | a new channel, the replay, and a resync notice exactly when a non-empty ID is unknown |
| `EventHub.Hub.CancelSubscription` | internal/events/hub.go:74-81 | the channel no longer gets events; nothing else changes |
| `EventHub.PlaceAfter` | internal/events/hub.go:89-94 | the place found is that of an event with the ID, and none is missed |
| `EventStream.EventContinuity` | internal/events/hub.go:97-147 | over all runs, what a client received is a gapless run of the history, except right after a resync notice |
| `EventStream.BufferIsRecentHistory` | internal/events/hub.go:50-53 | the buffer is always the last events of the boot, as many as fit |
| `EventStream.DrainedClientIsCurrent` | internal/events/hub.go:112-147 | a subscribed client that received all that was on its way is up to date or was told to resync |
| `EventStream.ResyncExactlyWhenForgotten` | internal/events/hub.go:66-95 | a returning client is told to resync exactly when its last event has left the buffer |
| `EventFacts.NumbersAndBuffer` | internal/events/hub.go:44-53 | over every run the events of a boot are numbered from one without a gap, and the buffer holds the last of them, as many as the capacity or a thousand |
| `EventFacts.NewClientStartsNow` | internal/events/hub.go:66-88 | a client without an event gets no replay and no notice, and an empty channel that is subscribed |
| `EventFacts.ReplayIsTheRest` | internal/events/hub.go:85-95 | a client whose last event is still kept gets all events after it, in order, and no notice |
| `EventFacts.PublishReachesRoom` | internal/events/hub.go:44-64 | a subscriber with fewer than 32 events waiting gets the event and stays; any other is dropped |
| `Updater.Updater.Apply` | internal/updater/apply.go:64-198 | one request from check to report is the run of the per-call transition over the outcomes of its calls |
| `Updater.Updater.Prepare` | internal/updater/apply.go:100-168 | announce, fetch, back up, announce the installation; what failed ends where the source ends |
| `Updater.Updater.BackUp` | internal/updater/apply.go:161-165 | other backups are pruned; an existing backup of the current version is never overwritten |
| `Updater.Updater.Install` | internal/updater/apply.go:169-195 | stop, replace, start, check and mark, each failure leading to restart or rollback |
| `Updater.Updater.Rollback` | internal/updater/apply.go:285-309 | restores binary and marker, restarts and checks, and remembers whether all of it worked |
| `UpdaterProtocol.AlwaysRecoverable` | internal/updater/apply.go:161-197 | at every state outside the window between restoring the binary and the marker, the marked version is installed or kept in its backup |
| `UpdaterProtocol.PromptRunsAreRecoverable` | internal/updater/apply.go:64-198 | failures and crashes at any call, and any number of further attempts, never lose the marked version, if the final success report does not fail |
| `UpdaterProtocol.WindowDecides` | internal/updater/apply.go:285-295 | inside that window the next step keeps the version recoverable exactly when it puts the marker back, or the contents are equal |
| `UpdaterProtocol.WindowIsReachable` | internal/updater/apply.go:185-197 | whenever the updater is idle, an update whose success cannot be written gets into the window, and a crash or a failure there loses the marked version unless the contents are equal |
| `UpdaterProtocol.InstallationIsLost` | internal/updater/apply.go:285-295 | the first update of a fresh installation can lose the version that the marker names |
| `UpdaterProtocol.ReportedRollbackIsComplete` | internal/updater/apply.go:295-308 | over runs in which every such window is closed, a reported rollback means the old, trusted binary, the old marker and a healthy service |
| `UpdaterProtocol.ReportedRollbackRestoresBackup` | internal/updater/apply.go:295-308 | in any run, a reported rollback means that the backup of the version the marker names is installed, and a healthy service |
| `UpdaterProtocol.ReportedSuccessIsComplete` | internal/updater/apply.go:185-197 | in any run, a reported success means that the target is marked and what is installed was found healthy as this version |
| `UpdaterOutcomes.RollbackOutcome` | internal/updater/apply.go:285-309 | what a rollback leaves for every combination of outcomes: it goes through all its calls, starts the service in any case, and is reported as performed exactly when restoring, marking, starting and checking succeeded |
| `UpdaterOutcomes.GoodRollbackIsReported` | internal/updater/apply.go:285-309 | in any run a rollback whose calls succeed ends with the backup installed and marked, the service ready and the rollback reported |
| `UpdaterOutcomes.UpdateSucceeds` | internal/updater/apply.go:64-198 | an acceptable request whose calls all succeed ends with the candidate installed, marked, ready and reported, and the old backup removed |
| `UpdaterOutcomes.TrustIsEarned` | internal/updater/apply.go:181-192 | in any run a content becomes trusted for a version only when it is installed, was found ready and has just been marked |
| `UpdaterOutcomes.RefusedIsReported` | internal/updater/apply.go:64-100 | a request that does not name the installed version and a newer one is reported as failed, and nothing else happens |
| `UpdaterOutcomes.FailedReplacementRestarts` | internal/updater/apply.go:169-180 | when the service cannot be stopped or the binary not replaced, the service is started again and a failure without rollback reported |
| `UpdaterOutcomes.BackupKeepsFirst` | internal/updater/apply.go:161-165 | the backup of the current version is kept, or made of what is installed; others are kept unless pruned |
| `MarkerSearch.FileContainsMarker` | internal/updater/apply.go:602-632 | found exactly when the marker occurs in the bytes read, however they were split; an error only when it does not and the reading failed |
| `MarkerSearch.Scan` | internal/updater/apply.go:612-624 | one read with the kept tail decides for everything read so far |
| `MarkerSearch.WindowDecides` | internal/updater/apply.go:613-618 | the last bytes kept are enough |
| `ImagePlaceholders.ActivatingRestoresImages` | internal/connectors/mime.go:293-306 | activating the placeholders of a blocked document gives the document sanitized with images |
| `ImagePlaceholders.InertRenderingIsIdentity` | internal/connectors/mime.go:293-306 | rendering a blocked document without images changes nothing |
| `ImagePlaceholders.RendersAs` | internal/connectors/mime.go:345-476 | rendering in any mode what was sanitized in any other gives what sanitizing in that mode would have given |
| `ImagePlaceholders.BlockedIsInert` | internal/connectors/mime.go:422-453 | a document sanitized or rendered without images has no active image and no element outside the list |
| `ImagePlaceholders.NothingHeldBack` | internal/connectors/mime.go:428-440 | without a report of held back images, blocking made no difference |
| `ImagePlaceholders.ElementAttributesStay` | internal/connectors/mime.go:455-487 | the attributes kept of an element are what would be kept of the kept ones |
| `SanitizerFacts.TextSurvives` | internal/connectors/mime.go:345-420 | in every mode all text that a reader sees is kept in its order, and none is added |
| `SanitizerFacts.ComesOutSafe` | internal/connectors/mime.go:332-530 | in every mode only listed elements and attributes come out; addresses are absolute ones of the schemes let through, images are active only where allowed, a style sheet holds text only |
| `SanitizerFacts.ElementsByList` | internal/connectors/mime.go:332-376 | an element of the first list goes with its content, one of the second stays around its cleaned content, any other is unwrapped |
| `SanitizerFacts.ImageSurvives` | internal/connectors/mime.go:422-453 | an image with an HTTPS address stays an image with that address, its texts and its size; one without is dropped |
| `SanitizerFacts.PresentationSurvives` | internal/connectors/mime.go:455-487 | a kept element keeps its presentation and title as clean text |
| `SanitizerFacts.AddressSurvives` | internal/connectors/mime.go:455-477 | an anchor keeps its address in normal form when its scheme is let through |
| `SanitizerFacts.LinkSurvives` | internal/connectors/mime.go:391-412 | a link stays exactly when it is one to a style sheet with an HTTPS address |
| `SanitizerFacts.ReportIsExact` | internal/connectors/mime.go:422-453 | held back images are reported exactly when some image has an address and is not shown, or has a source that is none |
| `Sanitizer.Sanitize` | internal/connectors/mime.go:308-324 | the walk returns the cleaned document and the report of held back images |
| `Sanitizer.Walker.CleanNode` | internal/connectors/mime.go:345-376 | cleans one node as specified and adds to the report |
| `Sanitizer.Walker.CleanChildren` | internal/connectors/mime.go:414-420 | cleans the siblings in order |
| `Sanitizer.Walker.CleanImageNode` | internal/connectors/mime.go:422-453 | keeps an image with a valid address, active or as a placeholder, and reports the others |
| `Sanitizer.ElementAttributesOf` | internal/connectors/mime.go:455-477 | the attributes in order: presentation, title, target of an anchor, spans of a cell |
| `Sanitizer.ImageAttributesOf` | internal/connectors/mime.go:434-452 | the address, then texts and sizes, then presentation |
| `HtmlText.CleaningTwice` | internal/connectors/mime.go:522-529 | cleaning a cleaned value changes nothing |
| `Tokenizer.Scan` | internal/search/tokenizer.go:17-49 | the loop with its two buffers gives the tokens of the maximal runs, in order |
| `Tokenizer.ComputeTokens` | internal/search/tokenizer.go:10-50 | trims, lower-cases and scans |
| `Tokenizer.AllGrams` | internal/search/tokenizer.go:27-31 | the one- to three-rune grams, by size and place |
| `Tokenizer.RunsAreMaximal` | internal/search/tokenizer.go:8-9 | the runs are exactly the maximal stretches of one class other than boundary |
| `Tokenizer.GramsArePieces` | internal/search/tokenizer.go:27-31 | the grams are exactly the pieces of one to three runes |
| `Tokenizer.TokensDistribute` | internal/search/tokenizer.go:42-45 | tokens distribute over a boundary rune |
| `Tokenizer.PieceIsFound` | internal/search/tokenizer.go:8-9 | every token of a CJK-only piece of a text is a token of the text |
| `Tokenizer.MatchQuery` | internal/search/tokenizer.go:58-70 | every token once, quoted, joined by AND |
| `Tokenizer.QueryReadsAsItsTerms` | internal/search/tokenizer.go:56-69 | whatever the tokens hold, the expression reads back as exactly them: nothing in a token acts as an operator |
| `Tokenizer.PieceMatches` | internal/search/tokenizer.go:56-70 | the query built from a CJK-only piece of a text asks for tokens of the text only |
| `TokenizerFacts.TokensAreExact` | internal/search/tokenizer.go:8-50 | the tokens are exactly the whole words and the pieces of one to three CJK runes of the lower case of the input |
| `TokenizerFacts.WordIsOneToken` | internal/search/tokenizer.go:35-41 | a Latin word is one token, in lower case |
| `TokenizerFacts.CjkInOrder` | internal/search/tokenizer.go:27-31 | a CJK text gives its runes, then its pairs, then its triples, each in the order of the text |
| `RateLimiter.Limiter.Allow` | internal/auth/limiter.go:37-50 | allowed exactly when fewer than the limit of all failures since the last reset lie strictly inside the window; on denial the retry time is that of the oldest of them |
| `RateLimiter.Limiter.RecordFailure` | internal/auth/limiter.go:52-58 | adds one failure to the history of the key |
| `RateLimiter.Limiter.Reset` | internal/auth/limiter.go:60-64 | forgets the key |
| `RateLimiter.Limiter.Active` | internal/auth/limiter.go:66-80 | what is kept of a key is exactly its failures inside the window |
| `RateLimiter.CountExpired` | internal/auth/limiter.go:69-72 | the length of the front part that left the window |
| `RateLimiter.PruningIsInvisible` | internal/auth/limiter.go:66-80 | forgetting expired failures changes no later answer |
| `RateLimiter.NoEarlierRetry` | internal/auth/limiter.go:45-49 | before the announced time every attempt is refused, whatever else fails in between |
| `RateLimiter.RetryIsExact` | internal/auth/limiter.go:45-49 | at the announced time the attempt is allowed exactly when fewer than the limit came after the oldest, so always when exactly the limit were active |
| `RateLimiter.RetryCanBeEarly` | internal/auth/limiter.go:45-49 | with more than the limit active the announced time can be too early |
| `RateLimiter.LimitIsExact` | internal/auth/limiter.go:37-50 | allowed exactly when fewer failures than the limit are recorded or the one that many places from the end is a window old; the announced time is a window after the first that is not |

## Left out

- IMAP and SMTP wire protocols, TLS, dialing, IDLE connections, session pools: library and network behaviour; a session is an oracle.
- SQL text, migrations, JSON and the full-text index: tables are maps and sets, a transaction is one step.
- HTML parsing and rendering, URL parsing, MIME building and decoding: the sanitizer is modelled on trees.
- Names of elements and attributes in the sanitizer are enumerated; differences in letter case are resolved before the model begins.
- Message bodies, attachments, address lists and the passes that heal bodies and envelopes, beyond that a row exists and its conversation is refreshed.
- How a fetched message finds its conversation and its earlier row: the model takes what the lookups establish, and any choice they leave open.
- HTTP handlers, authentication, cryptography, configuration and the web front end.
- The inbox poller, the reconcile scheduler and the IDLE watchers are callers of the scheduler: they may enqueue anything at any time.
- A worker may take from either queue when both have jobs; the preference for the foreground queue is not modelled, so nothing is proved about the order in which keys run.
- The length of backoff delays and of job timeouts: a timer may fire, and a job may end, at any time.
- Appending a copy to the Sent folder happens after the row is settled and changes only its error code.
- The choice of sources and of the destination of a move: an attempt goes over any groups, and any number of them.
- The order of the groups by key text matters to no property; it is fixed, and not stated.
- FolderMirror.RebuildTakesNewCheckpoint: the mirror across UIDVALIDITY changes has no positive theorem, because the code does not give one; a mailbox changes its UIDVALIDITY only between passes.
- EventStream.EventContinuity: says nothing about the first event a client receives; a client that never received one is never told to resync.
- Wrap-around of the event counter, of durations and of failure counters.
- Download limits, checksums and build information of a release candidate: a candidate is verified, or the step fails.
