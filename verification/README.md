# Verification of the durable session core

A Dafny model of the parts of the agent runtime whose failure would lose, repeat or reorder what a
session has durably said and done, with proofs about every run of them. Code that works step by
step is modelled by classes and loops, each proved equal to a specification on values; the
properties are then proved about the specification, over every reachable state.

| file | component |
|---|---|
| `RecorderSpec`, `RecorderProofs`, `Recorder` | the event recorder: one loop, batching, permits, sticky failure |
| `Ingress` | sequenced submissions, the drain cutoff, waiting for a future |
| `Checkpoint`, `RunnerSpec`, `Runner` | durable state, the store, and the runner's tentative changes and undo |
| `Outcomes` | what each operation of the runner leaves, field by field |
| `Startup`, `Balance`, `RunnerRuns`, `RunnerRefinement` | restart recovery, call/output balance, runs with crashes, message targets |
| `Preparation`, `BoundaryDrafts` | what a model boundary drafts, and where its pushes land |
| `GuidanceRuns`, `SessionRuns` | what each operation enters into the context; whole sessions beside the log of their pushes and the ledger of their queue |
| `ToolStep` | result ordering and assembly, denied approvals |
| `MessageQueue`, `QueueRuns`, `Admission` | queued messages, their conservation, admission and editing |
| `DeliveryOnce`, `OnceOnly` | once-only guidance and its receipts |
| `SessionFiles`, `Sums` | upload reservations, quotas, publication, deletion |
| `ContextEstimate` | exact partition of a request's tokens |
| `Attachments` | restoring attachment materializations after compaction |
| `StagedInput` | provisional history and context-rewrite epochs |
| `Json`, `Upgrade`, `EventDedup` | the offline checkpoint upgrade |
| `Sequences`, `Wrappers` | shared sequence facts, `Option` and `Result` |

`dafny verify dfyconfig.toml` checks the project.

## How failures and other tasks are modelled

A store save, a frontend send, a clock, a usage observer and a hook are parameters of the step that
meets them: a step carries the outcomes of its calls, so a run of steps with arbitrary outcomes is
one possible execution. A save either happens whole or not at all (`src/lib.rs` states this of
`save_with_events`). Channels are sequences, semaphores are counters, deadlines are a step that may
happen whenever the loop waits for a command with a batch pending. A sender's enqueue is two steps,
because the receiver can act between them. The recorder takes a command, flushes the batch ahead of
it and finishes it in separate steps, because callers go on meanwhile and the command holds its
permit until the end.

## What turned out not to hold, and exactly when it does

- Rolling back receipts is exact if and only if no touched owner was recorded with an empty key set
  (`RollbackIsExact`, `EmptyOwnerIsDropped`). No reachable state records one, so every rollback of
  the runner is exact (`AlwaysRestorable`, `Do`).
- An acknowledged append is durable at once, except for a delta within the batch limit whose stream
  is that of the command taken just before it (`AppendAckDurability`); that one can still be lost
  (`AcknowledgedDeltaCanBeLost`).
  An Ok save or flush is what promises durability (`BarrierIsDurable`).
- Restoring attachments twice is the same as once, for every compacted input, if and only if no
  restored materialization has a target of its own (`IdempotentIffSettled`). Keeping materializations
  apart in the original is not enough when a plain message reads like one (`LookalikesGrow`); it is
  enough otherwise (`WellSpacedSettles`).
- The rewrite epoch rises exactly when some proposal differs from the input it saw; the input itself
  changes with it, except when every differing proposal differs in cache markers alone on an input
  whose breakpoint was already in place (`EpochRisesIffChanged`, `ResetRestoresIff`,
  `MarkerOnlyRewrite`). With the breakpoint elsewhere, markers alone do change the input
  (`MisplacedMarkerIsMoved`).
- Stored content plus reservations can pass the store limit. Only a failed publication takes them
  past it, exactly when it linked new content, the collection after it ran and missed that content,
  and the content does not fit beside the reservation the upload still holds (`FailureOvercharges`,
  `Finish`). No other method does, and the excess is gone once such uploads are dropped
  (`ChargedWithinLimit`, `LeftoverIsChargedTwice`).
- An item pushed at a model boundary lands where it was announced if and only if nothing was unsaved
  when the boundary was accepted, however often the queue was saved meanwhile (`PushedItemLands`).
- The receipts are exactly the context's identities as long as no preparation rewrites the context
  (`GrowingContexts`). In every run they are exactly the identities that ever entered, each once, and
  the context holds no others (`Reachable`).
- A failed abort restores everything but the mark that the turn's end hooks ran, so a retry does not
  run them again (`AbortWithEvents`).

## Model

| member | source | states |
|---|---|---|
| Recorder.EventRecorder.Merge | src/agent/recorder.rs:85-105 | appends a delta's text to the batch exactly when both have one stream key and the joined text is within 16 KiB; otherwise nothing changes |
| Recorder.EventRecorder.FlushStream | src/agent/recorder.rs:391-401 | writes and publishes the batch and releases its permit, whether the write or the send fails |
| Recorder.EventRecorder.Reject | src/agent/recorder.rs:454-471 | answers a command with the failure; only a flush ends the loop |
| Recorder.EventRecorder.RecordAppend | src/agent/recorder.rs:403-432 | writes and publishes one event, and answers its caller when it is written |
| Recorder.EventRecorder.PublishAll | src/agent/recorder.rs:480-491 | sends a prefix of the events, all of them unless the frontend fails |
| Recorder.EventRecorder.RecordSave | src/agent/recorder.rs:357-389 | writes a checkpoint's events in one piece, then publishes them |
| Recorder.EventRecorder.ReceiveAppend | src/agent/recorder.rs:280-320 | an append: merge, or flush and then start a batch or write |
| Recorder.EventRecorder.ReceiveBarrier | src/agent/recorder.rs:321-341 | a save or flush: the pending batch goes first |
| Recorder.EventRecorder.Take | src/agent/recorder.rs:262-273 | takes the head of the channel and keeps its permit |
| Recorder.EventRecorder.FlushAhead | src/agent/recorder.rs:291-325 | flushes the batch ahead of the command in progress, and refuses the command when that fails |
| Recorder.EventRecorder.Receive | src/agent/recorder.rs:273-342 | finishes the command in progress, refused outright after a failure |
| Recorder.EventRecorder.Tick | src/agent/recorder.rs:262-267 | the batch deadline flushes the batch and sets the failure to this flush's outcome |
| Recorder.EventRecorder.Reserve | src/agent/recorder.rs:197-213 | takes permits for a command, never more than the budget |
| Recorder.EventRecorder.TryRecord | src/agent/recorder.rs:139-154 | queues an event exactly when the free permits and the channel have room and the loop runs; otherwise it keeps no permit |
| Recorder.EventRecorder.RunRecorder | src/agent/recorder.rs:252-355 | any run of the loop and its callers refines the state machine |
| RecorderProofs.NextKeeps | src/agent/recorder.rs:252-355 | every step, the timer included, keeps the recorder's invariant |
| RecorderProofs.Reachable | src/agent/recorder.rs:252-355 | the invariant holds in every reachable state |
| RecorderProofs.CoalescesIsFlat | src/agent/recorder.rs:85-105 | merging adjacent deltas of a stream loses, adds and reorders nothing a reader sees |
| RecorderProofs.JournalIsFaithful | src/agent/recorder.rs:258-342 | the journal is the accepted events in channel order up to merging, the published events are a prefix of it, and no command in the channel is lost while the loop runs |
| RecorderProofs.BarrierAnswer | src/agent/recorder.rs:321-341 | a save or flush that is finished gets one answer, Ok if and only if everything up to it is in the journal |
| RecorderProofs.WaitingAnswer | src/agent/recorder.rs:291-328 | while the batch ahead is flushed the command in progress is either still unanswered or was handled with the failure, unwritten |
| RecorderProofs.BarrierIsDurable | src/agent/recorder.rs:258-342 | an Ok barrier means every append before it is in the journal and stays there in every later run |
| RecorderProofs.AppendAckDurability | src/agent/recorder.rs:280-320 | in every run an Ok append is in the journal with everything before it, unless it is a delta of at most 16 KiB that continues the stream of the command taken just before it |
| RecorderProofs.LoopEnds | src/agent/recorder.rs:270-342 | finishing a command ends the loop exactly for a flush that meets a failure, an unwritten or unpublished save, and an append that fails before its caller is answered |
| RecorderProofs.ShutdownFlushes | src/agent/recorder.rs:343-355 | when the channel ends everything sent is in the journal, if the store takes the last batch |
| RecorderProofs.AcknowledgedDeltaCanBeLost | src/agent/recorder.rs:280-320 | a run in which an acknowledged delta never reaches the journal |
| RecorderProofs.FailureIsSticky | src/agent/recorder.rs:258-342 | after a failure no batch is pending, nothing is written or published, and no answer is Ok, in every run |
| RecorderProofs.PermitsConserved | src/agent/recorder.rs:124-213 | the permits in use are always those of the commands waiting, in the channel, in progress, or batched; while nothing failed, exactly those of the commands not yet written |
| Ingress.NextKeeps | src/agent/mod.rs:499-530 | sends, publications and receipts keep sequences consecutive and the log append-only |
| Ingress.SendIsQueued | src/agent/mod.rs:499-530 | a send is refused by an unpublished one, a full channel or a full sequence alone, and is otherwise the next submission |
| Ingress.CutoffIsReachable | src/agent/mod.rs:578-594 | until a cutoff is reached the channel holds exactly the next sequence, whatever happens in between |
| Ingress.ReceiverOvertakesPublication | src/agent/mod.rs:499-530 | the receiver can be ahead of the published sequence, by one submission at most |
| Ingress.Inbox.Cutoff | src/agent/mod.rs:588-594 | a cutoff covers everything sent so far |
| Ingress.Inbox.RouteNext | src/agent/mod.rs:579-586 | receives the next sequence without waiting; it interrupts exactly when it is an interrupt of this turn |
| Ingress.Inbox.DrainSubmissions | src/agent/turn.rs:333-366 | routes every submission up to the cutoff; none of those passed interrupts the turn, and the first interrupt that nothing stops before is the one reported, by its id |
| Ingress.Inbox.WaitActive | src/agent/input.rs:148-191 | Ready means no interrupt of the turn was received and everything sent before the future was ready, and up to the last cutoff, was; an interrupt sent before the wait is reported if nothing stops before it |
| Checkpoint.PositionedChronological | src/backend/checkpoint/mod.rs:915-940 | turns a newest-first page into positions, oldest first |
| Checkpoint.PositionsShape | src/backend/checkpoint/mod.rs:915-940 | positions list the saved items, each once and in order |
| Checkpoint.TargetNamesItsItem | src/agent/turn.rs:190-221 | the next sequence and one past the unsaved items name exactly the item that lands there |
| Checkpoint.SaveKeepsJournal | src/agent/mod.rs:1093-1119 | a save moves the unsaved items to the transcript and loses none |
| Runner.Runner.PersistWithEvents | src/agent/mod.rs:1093-1119 | saves the next sequence whole, or restores the sequence and changes nothing |
| Runner.Runner.RecordUsage | src/agent/mod.rs:1135-1156 | both totals rise, or neither does |
| Runner.Runner.RecordTools | src/agent/mod.rs:1158-1178 | both tool counters rise, or neither does |
| Runner.Runner.FinishExecution | src/backend/checkpoint/mod.rs:595-638 | ends the execution into a record and statistics, or leaves it active |
| Runner.Runner.FinishAndPersistExecution | src/agent/mod.rs:1186-1203 | a failed save puts execution and statistics back |
| Runner.Runner.ExtendContext | src/agent/mod.rs:1211-1220 | pushes exactly the first occurrences to context and transcript, with their receipts |
| Runner.Runner.BeginTurn | src/agent/turn.rs:305-331 | refuses a second execution and changes nothing on failure |
| Runner.Runner.StartMessageTurn | src/agent/turn.rs:185-272 | starts the turn as one transaction; after a failed save the world is the old one exactly when the receipts can be restored |
| Runner.Runner.PersistSubmissionChange | src/agent/input.rs:193-215 | installs the changed queue or keeps the previous one |
| Runner.Runner.TurnEndEvents | src/agent/turn.rs:495-526 | the turn-end hooks run once per turn, even after a failure |
| Runner.Runner.FinishTurn | src/agent/turn.rs:473-493 | ends a turn as one transaction, promoting unstaged steering messages unless it completed |
| Runner.Runner.CompleteTurn | src/agent/turn.rs:397-418 | a failed completion changes only the hook mark |
| Runner.Runner.AbortWithEvents | src/agent/turn.rs:431-471 | a failed abort restores state and transcript, and only the hook mark stays |
| Runner.Runner.AppendToolResults | src/agent/tool_step.rs:359-392 | counts, charges and appends a batch, and fails before appending anything |
| Runner.Runner.PersistToolResults | src/agent/tool_step.rs:275-338 | one transaction; after a failed save the world is the old one exactly when the receipts can be restored |
| Runner.Runner.CompleteToolStep | src/agent/tool_step.rs:340-357 | additionally ends the approval, or puts it back |
| Runner.Runner.FinishPendingTools | src/agent/tool_step.rs:394-414 | one error result per pending call, the calls entering first while a model step is active |
| Runner.Runner.StageMessageInput | src/agent/turn/model.rs:116-271 | stages all steering messages as one transaction that a hook or a save can refuse whole |
| Runner.Runner.StageMessages | src/agent/turn/model.rs:143-211 | each message's hooks see the context and receipts of the messages before it |
| Runner.InputIsUndone | src/agent/turn.rs:238-268 | truncation and receipt rollback take back exactly the submitted input |
| Outcomes.SaveOutcome | src/agent/mod.rs:1093-1119 | a save stores the state under the next sequence and the delta as its batch, and clears the delta |
| Outcomes.StartOutcome | src/agent/turn.rs:185-272 | a started turn takes the first startable message with its id off the queue; its text enters context and transcript after the admitted input, a fresh execution begins, and the events are those of the start |
| Outcomes.StartAccepted | src/agent/turn.rs:185-272 | a turn starts whenever the message is queued, no execution runs, and clock, sequence and store allow it |
| Outcomes.StageOutcome | src/agent/turn/model.rs:116-271 | the turn's steering messages leave the queue; those let through enter context and transcript in order, each after its admitted input, and all are announced or rejected; an idle execution becomes the first one's turn |
| Outcomes.ToolsOutcome | src/agent/tool_step.rs:275-392 | a tool step leaves each result's output with its own call, text and error mark, then its admitted input, in context and transcript; counters, usage, pending calls, approval and events follow |
| Outcomes.ToolsAccepted | src/agent/tool_step.rs:275-392 | a batch without charges fails for overflow or the store alone |
| Outcomes.EndOutcome | src/agent/turn.rs:473-493 | an ended turn leaves its record, the promoted queue unless it completed, the hook mark and the end event |
| Outcomes.AbortOutcome | src/agent/turn.rs:431-471 | an aborted turn leaves one error output per pending call, behind the calls if a step was in flight, nothing pending, and its record and events |
| Outcomes.FinishOutcome | src/backend/checkpoint/mod.rs:595-638 | each field of the record and of the statistics of an ended execution |
| Outcomes.FinishRefused | src/backend/checkpoint/mod.rs:595-638 | an execution ends unless the clock fails, a step is in flight or a counter overflows |
| RunnerRefinement.AlwaysRestorable | src/middleware/delivery_once.rs:113-127 | in every reachable state every rollback is exact |
| RunnerRefinement.Do | src/agent/turn.rs:185-272 | from every reachable state each operation is a whole transaction or no change, but for the hook mark |
| RunnerRefinement.StartedMessageLands | src/agent/turn.rs:190-221 | the target announced with a started turn is where its message lands, and only that message |
| RunnerRefinement.StagedTargets | src/agent/turn/model.rs:199-210 | the k-th message let through is announced k positions after the unsaved items |
| RunnerRefinement.StagedMessagesLand | src/agent/turn/model.rs:116-271 | every staged message lands where it was announced, after everything pushed before |
| RunnerRuns.NextKeeps | src/agent/turn.rs:185-526 | every operation, saved or failed, every rewrite and every crash keeps the invariant; the saved batches and the delta become exactly what they were and the items it pushed |
| RunnerRuns.PrepareKeeps | src/agent/turn/model.rs:312-516 | preparing a request keeps balance and guidance whatever its hooks rewrite, and pushes exactly what they pushed; a failed hook changes nothing |
| Preparation.DraftKeeps | src/middleware/context.rs:836-886 | every sequence of rewrites, pushes and session-start hooks keeps the draft's calls matched and its guidance known, and enters new identities only, each once |
| Preparation.DraftPushes | src/middleware/context.rs:861-886 | the draft's transcript is what was pushed and noted, in order |
| SessionRuns.StepKeeps | src/agent/mod.rs:1093-1220 | one operation keeps transcript and delta equal to the log of pushes, and the queue equal to its ledger |
| SessionRuns.LogFollows | src/agent/mod.rs:1093-1119 | what an operation appends to the log is what transcript and delta gain, saved or not |
| GuidanceRuns.NextExtends | src/agent/mod.rs:1211-1220 | every operation but a preparation only extends the context, and the receipts gain exactly the identities of the extension |
| GuidanceRuns.NextEnters | src/middleware/delivery_once.rs:86-98 | what an operation enters, a rewriting one included, has no receipt yet and gets one |
| SessionRuns.GuidanceFollows | src/middleware/delivery_once.rs:86-110 | the histories of entered identities stay those of the live and of the stored receipts, through failed saves and crashes |
| SessionRuns.GrowingContexts | src/middleware/delivery_once.rs:86-110 | without preparations the receipts are exactly the identities in the context |
| SessionRuns.Reachable | src/agent/mod.rs:1093-1220 | in every state a new session can reach, rewrites and crashes included: transcript and delta are the log of accepted pushes, open calls are the pending tools, each guidance identity entered once, the receipts are those and the context holds no other, admitted messages are queued or delivered once, statistics are the sum of the records |
| RunnerRuns.RestartKeeps | src/agent/startup.rs:229-376 | a crash at any point and the opening after it, its session-start guidance included, satisfy the invariant and push exactly the recovered items |
| RunnerRuns.ToolsKeep | src/agent/tool_step.rs:359-392 | saved results close exactly their calls and push exactly their outputs and first-time guidance |
| RunnerRuns.AbortKeeps | src/agent/turn.rs:431-471 | a saved abort leaves no turn, step, pending call or open call, and pushes exactly the items that settle the calls |
| Balance.SettlingBalances | src/agent/tool_step.rs:394-414 | the items an abort or a restart adds leave no call unanswered, on either side of a model step |
| Balance.PendingLeft | src/agent/tool_step.rs:375-382 | exactly the answered calls leave the pending tools |
| Balance.OfferedCounts | src/agent/tool_step.rs:383-390 | a batch appends one output per result and no call |
| Startup.Recover | src/agent/startup.rs:229-331 | settles uncertain tools and an interrupted model step, with the source's error conditions |
| Startup.RestartLeavesWaiting | src/agent/startup.rs:229-235 | a session with no step in flight, and no pending tool but those of an unanswered approval, is left as it is |
| Startup.RestartSettles | src/agent/startup.rs:229-331 | every other session's execution ends as aborted; its uncertain calls get one error output each and leave, and its steering messages wait for the next turn |
| Startup.OpeningLeavesWaiting | src/agent/startup.rs:333-344 | opening a waiting session adds its hooks' guidance and nothing else |
| Startup.OpeningReports | src/agent/startup.rs:345-376 | the events of an opening: those of the recovery, then the turn-end hooks and the aborted turn |
| Startup.RecoveryReports | src/agent/startup.rs:241-300 | the events of a recovery: the interrupted step, then one end per settled call |
| RunnerRuns.CrashKeepsApproval | src/agent/startup.rs:229-235 | a crash while an approval waits keeps the approval, its calls, their turn and the queue, and pushes nothing |
| Startup.PendingFinishedIs | src/agent/tool_step.rs:394-414 | an abort adds one error output per pending call and raises both counters by their number |
| Startup.OpenSession | src/agent/startup.rs:229-376 | recovers, then runs the session-start hooks on the recovered context, and reports the aborted turn after its turn-end events; a failing hook fails the opening |
| Startup.RestartMatchesAbort | src/agent/startup.rs:229-331 | restart and live abort end in the same state, record and context, but for the outputs' text |
| ToolStep.OrderResults | src/agent/tool_step.rs:482-496 | no result is invented or used twice; with distinct calls those that have a result keep one, in call order |
| ToolStep.OneResultPerCall | src/agent/tool_step.rs:482-496 | any permutation of one result per distinct call comes out in call order |
| ToolStep.BindBatch | src/middleware/tools.rs:643-665 | every call is either callable or has an error result |
| ToolStep.FateAmongIs | src/agent/tool_step.rs:196-258 | a batch runs to its end exactly when nothing stops it, and the turn is interrupted exactly by an interrupt that nothing came before |
| ToolStep.Watch | src/agent/tool_step.rs:149-257 | polling the inbox before and while tools run gives that fate |
| ToolStep.RunBatch | src/middleware/tools.rs:1168-1216 | one result per call, in whatever order the calls end |
| ToolStep.ExecuteTools | src/agent/tool_step.rs:107-272 | executed, cancelled and unavailable calls each get exactly one result, in call order, unless a submission interrupts the turn |
| ToolStep.ApplyDenial | src/agent/approval.rs:171-213 | a denial gives the asked calls its rejection and runs the others, one result per call in call order, unless the turn is interrupted |
| ToolStep.ResultFields | src/agent/tool_step.rs:107-272 | what each call hands back: its tool's result, or the error of its cancellation or its binding |
| ToolStep.DeniedFields | src/agent/approval.rs:171-213 | after a denial exactly the asked calls carry the rejection |
| ToolStep.FateBefore | src/agent/tool_step.rs:149-175 | before it starts a batch is interrupted, or cancelled when its tools allow it and newer input waits |
| ToolStep.StepsAnswer | src/agent/tool_step.rs:107-272 | the results of an executed or denied batch answer exactly its calls, which is what saving them relies on |
| ToolStep.CompleteStepEmptiesPending | src/agent/tool_step.rs:375-382 | results for all pending calls empty the pending tools |
| MessageQueue.MessageQueue.Push | src/middleware/context.rs:292-303 | appends unless the queue is full or the identity is taken |
| MessageQueue.MessageQueue.Replace | src/middleware/context.rs:309-328 | replaces in place, or changes nothing |
| MessageQueue.MessageQueue.StageModelMessages | src/middleware/context.rs:330-345 | splits the queue into the turn's steering messages and the rest, both in order |
| MessageQueue.MessageQueue.NextTurn | src/middleware/context.rs:347-355 | the oldest message that may start a turn |
| MessageQueue.MessageQueue.ConsumeNextTurn | src/middleware/context.rs:357-367 | removes a message and says where re-insertion restores the queue |
| MessageQueue.MessageQueue.PromoteFailedTurn | src/middleware/context.rs:369-382 | the turn's steering messages become next-turn messages in place |
| MessageQueue.MessageQueue.Latest | src/middleware/context.rs:246-253 | the newest message of the owner |
| MessageQueue.MessageQueue.Count | src/middleware/context.rs:234-242 | counts the owner's messages |
| QueueRuns.NextKeeps | src/middleware/mod.rs:734-834 | one step keeps the balance of queued and delivered messages and forgets no receipt; an unsaved or unaccepted one, and the admission of a submission with a receipt, changes nothing |
| QueueRuns.QueueConservation | src/middleware/mod.rs:734-834 | over every run each admitted message is queued in order or was delivered once; identities stay unique and the queue bounded |
| SessionRuns.QueueFollows | src/agent/turn.rs:223-269 | admitting, editing, starting, staging, aborting and restarting move queued messages as the conservation argument says, saved or failed; nothing else moves them |
| SessionRuns.DeliveredIsPushed | src/agent/turn.rs:185-272 | the messages marked delivered are exactly those pushed to the transcript in that save, but for those a hook turned away |
| Admission.AdmitMessage | src/agent/input.rs:107-146 | Accepted exactly when the message is meant for the active turn if for any, is new and within both bounds, and is stored; it then waits for the active turn, the one after it or the next, as its delivery says; any other answer changes nothing |
| Admission.EditMessage | src/middleware/messages.rs:197-233 | edits the user's own queued message in place, durably, or changes nothing |
| Admission.AdmissionKeepsBound | src/middleware/messages.rs:159-195 | an owner's messages never pass its bound, and other owners' are untouched |
| DeliveryOnce.Accept | src/middleware/delivery_once.rs:86-98 | accepts the first occurrence of an identity only |
| DeliveryOnce.Record | src/middleware/delivery_once.rs:101-110 | records new guidance and reports whether there was any |
| DeliveryOnce.Rollback | src/middleware/delivery_once.rs:113-127 | removes the receipts of a suffix and owners left without keys |
| DeliveryOnce.Deliver | src/middleware/delivery_once.rs:36-70 | stages guidance unless it was delivered or is already staged; without a key it always does; bad keys, owners and items are refused |
| DeliveryOnce.KeyCharsAre | src/middleware/delivery_once.rs:36-70 | the characters of a key |
| DeliveryOnce.AcceptedContains | src/middleware/delivery_once.rs:86-98 | receipts hold the old identities and those of the items, and no others |
| DeliveryOnce.KeptHas | src/middleware/delivery_once.rs:86-98 | an identity enters exactly when it is offered and was never delivered |
| DeliveryOnce.KeptOnce | src/middleware/delivery_once.rs:86-98 | each identity enters at most once, and items without one all do, in order |
| DeliveryOnce.RollbackIsExact | src/middleware/delivery_once.rs:113-127 | rolling back an accepted suffix restores the receipts if and only if no touched owner had an empty key set |
| DeliveryOnce.EmptyOwnerIsDropped | src/middleware/delivery_once.rs:113-127 | a concrete rollback that is not exact |
| DeliveryOnce.NoEmptyOwner | src/middleware/delivery_once.rs:86-127 | accepting and rolling back never record an owner without keys |
| OnceOnly.SessionStart | src/middleware/mod.rs:836-887 | runs the hooks and records their guidance and the first reason to stop; a failing hook or compaction puts the input back and ends the started hooks, last first |
| OnceOnly.OnceOnlyRuns | src/middleware/mod.rs:836-887 | over every run of appends, failures, starts and compactions each identity enters once and receipts are exactly the entered identities |
| OnceOnly.AcceptGrows | src/middleware/delivery_once.rs:86-98 | accepting items extends the context by those kept and the receipts by exactly their identities |
| OnceOnly.StagedGrows | src/middleware/mod.rs:836-887 | session-start hooks extend the context, and the receipts by exactly the new identities |
| OnceOnly.StagedKnown | src/middleware/mod.rs:836-887 | on a replaced context they enter only identities without a receipt |
| SessionFiles.SessionFileStore.ValidateStorageCapacity | src/backend/session_files.rs:779-806 | admits bytes exactly when content, reservations and they fit the limit without overflow |
| SessionFiles.SessionFileStore.ReserveSession | src/backend/session_files.rs:808-854 | reserves exactly when both session limits allow it |
| SessionFiles.SessionFileStore.Begin | src/backend/session_files.rs:589-638 | begins an upload exactly when stored files and live uploads leave room for it in the store and in its session, and leaves the ledger alone otherwise |
| SessionFiles.SessionFileStore.Append | src/backend/session_files.rs:1040-1068 | accepts only the exact next chunk within the declared size |
| SessionFiles.SessionFileStore.Finish | src/backend/session_files.rs:1074-1155 | moves an upload from the ledger to the catalog in one step or leaves both alone; the capacity recheck never fails; says exactly when the charge passes the limit |
| SessionFiles.SessionFileStore.Release | src/backend/session_files.rs:1157-1182 | takes an upload's share off the ledger; the subtraction never saturates |
| SessionFiles.SessionFileStore.CollectBlobs | src/backend/session_files/storage.rs:143-184 | removes exactly unreferenced content, and keeps every stored file's |
| SessionFiles.SessionFileStore.PrepareDelete | src/backend/session_files.rs:410-462 | allows a deletion exactly when the selection is proper, no live upload is in the way and no kept file is named |
| SessionFiles.SessionFileStore.Delete | src/backend/session_files.rs:410-462 | deletes exactly the named files and then their unshared content, or changes nothing |
| SessionFiles.SessionFileStore.ChargedWithinLimit | src/backend/session_files.rs:779-806 | the charge is at most the limit and the spent uploads, hence within the limit once they are dropped |
| SessionFiles.FailureOvercharges | src/backend/session_files.rs:1074-1155 | a failed publication passes the limit if and only if it leaves new content that was not collected and does not fit |
| SessionFiles.LeftoverIsChargedTwice | src/backend/session_files.rs:1074-1155 | a concrete store that is charged twice its limit |
| SessionFiles.ReserveBalances | src/backend/session_files.rs:843-853 | a reservation keeps the ledger equal to the live uploads |
| SessionFiles.ReleaseBalances | src/backend/session_files.rs:1158-1175 | a release keeps the ledger equal to the live uploads, and an entry lives exactly as long as an upload |
| SessionFiles.PublishBalances | src/backend/session_files.rs:1074-1155 | a published file takes over exactly what its upload reserved |
| SessionFiles.CollectionKeepsContent | src/backend/session_files/storage.rs:143-184 | shared content outlives the deletion of one of its files |
| ContextEstimate.ContextEstimate.Add | src/agent/context_estimate.rs:48-55 | saturating tokens and item counts of one kind |
| ContextEstimate.ContextEstimate.AddInput | src/agent/context_estimate.rs:58-69 | whatever the order, each kind ends at its clamped sum |
| ContextEstimate.ContextEstimate.ScaledTokens | src/agent/context_estimate.rs:108-121 | a share fits its integer width and is the floor of its proportion |
| ContextEstimate.SortByKey | src/agent/context_estimate.rs:123-128 | a stable sort: deferred last, tokens descending, ties in the fixed order |
| ContextEstimate.ContextEstimate.Breakdown | src/agent/context_estimate.rs:96-144 | the counted parts add up to the clamped total exactly, each its floor but the first, in descending order |
| ContextEstimate.RemainderIsSmall | src/agent/context_estimate.rs:129-139 | the floors miss the total by less than one token per part |
| ContextEstimate.KindsAre | src/agent/context_estimate.rs:148-170 | where an item counts, by its marker and then its type |
| ContextEstimate.ShareIs | src/agent/context_estimate.rs:108-121 | a share is the proportional part rounded down |
| ContextEstimate.OrderIs | src/agent/context_estimate.rs:123-128 | deferred tools last, more tokens first, ties in the fixed order |
| ContextEstimate.LargestPartitions | src/agent/context_estimate.rs:134-139 | giving the first part the remainder keeps the order and makes the sum exact |
| Attachments.PrepareCompactedInput | src/middleware/attachments.rs:111-143 | the backward walk over the list it inserts into computes the forward restoration |
| Attachments.RestoreMaterialization | src/middleware/attachments.rs:284-300 | keeps, replaces or inserts the materialization after its message |
| Attachments.FindMaterialization | src/middleware/attachments.rs:123-140 | searches the original from the back |
| Attachments.LatestIsLatest | src/middleware/attachments.rs:123-140 | what is found follows the latest matching item, and nothing is found only when no match has one |
| Attachments.TargetIs | src/middleware/attachments.rs:111-140 | only a user's item gets a materialization: the one behind the last original item with its role, content and metadata that has one |
| Attachments.RetainedMessagesKeepTheirAttachments | src/middleware/attachments.rs:111-143 | every retained message with a materialization is immediately followed by its latest one |
| Attachments.OthersKeepTheirOrder | src/middleware/attachments.rs:284-300 | everything but materializations stays, in order |
| Attachments.IdempotentIffSettled | src/middleware/attachments.rs:111-143 | a second application changes nothing, for all inputs, if and only if no restored materialization has a target |
| Attachments.WellSpacedSettles | src/middleware/attachments.rs:111-143 | materializations that are apart and unlike other items make restoration idempotent |
| Attachments.AdjacentMaterializationsGrow | src/middleware/attachments.rs:111-143 | adjacent materializations make the second application add one more, and the third adds nothing |
| Attachments.LookalikesGrow | src/middleware/attachments.rs:111-143 | a message that reads like a materialization makes the second application add one more, and the third adds nothing |
| StagedInput.Stage | src/middleware/context.rs:648-695 | committing any pushes, replacements and in-place edits gives what they make of a plain list |
| StagedInput.StagedInput.MakeMut | src/middleware/context.rs:673-679 | copying on write does not change what the input shows |
| StagedInput.StagedInput.Commit | src/middleware/context.rs:681-695 | replaces or extends the history; on the original it gives exactly the input |
| StagedInput.ResetSharedBreakpoint | src/backend/model/mod.rs:1220-1261 | moves the breakpoint in place to the last markable part |
| StagedInput.ResetMovesOnlyMarkers | src/backend/model/mod.rs:1220-1261 | nothing but markers changes, and a second reset changes nothing |
| StagedInput.ResetOutcome | src/backend/model/mod.rs:1220-1261 | after a reset exactly the last text or image part is marked, and everything else is as it was |
| StagedInput.ModelContext.RewriteInput | src/middleware/context.rs:836-859 | replaces the input, advancing the epoch once per boundary, or fails and changes nothing |
| StagedInput.ModelContext.PushInput | src/middleware/context.rs:877-886 | pushes to both lists and names the position the save will give |
| StagedInput.EpochCountsBoundaries | src/middleware/context.rs:836-859 | the epoch rises by one exactly when some rewrite proposed another sequence |
| StagedInput.ResetRestoresIff | src/middleware/context.rs:836-859 | a reset proposal equals the input it saw if and only if they differ in markers alone and that input's breakpoint is in place |
| StagedInput.ChangesUnlessMarkers | src/middleware/context.rs:836-859 | a differing rewrite changes the input unless it only moves markers |
| StagedInput.EpochRisesIffChanged | src/middleware/context.rs:836-859 | the epoch rises exactly when the input changed, unless all differing proposals only move markers |
| StagedInput.MisplacedMarkerIsMoved | src/backend/model/mod.rs:1220-1261 | markers alone change an input whose breakpoint is not in place |
| StagedInput.RunBoundary | src/middleware/context.rs:836-886 | running a boundary's hooks in place is their run on values, and each push is told the position after the boundary's earlier ones |
| BoundaryDrafts.BoundaryIsDraft | src/middleware/context.rs:836-886 | the staged input, its markers hidden, is the draft that the runner commits |
| BoundaryDrafts.PushedItemLands | src/agent/turn/model.rs:273-310 | a pushed item lands after what was unsaved, alone; its announced position, rebased over saves of the queue, is that one if and only if nothing was unsaved |
| StagedInput.MarkerOnlyRewrite | src/middleware/context.rs:836-859 | a concrete rewrite that advances the epoch and changes nothing |
| EventDedup.BuildIndex | scripts/upgrade-portable-compaction.py:274-286 | indexes every large output of a session's transcript |
| EventDedup.IndexedIs | scripts/upgrade-portable-compaction.py:274-286 | the index holds exactly the transcript's keys, and a position exactly for unique ones |
| EventDedup.EventChanges | scripts/upgrade-portable-compaction.py:269-306 | one envelope per event on an old database; on a current one only validation |
| EventDedup.KeyIsOutput | scripts/upgrade-portable-compaction.py:258-266 | equal keys mean equal outputs |
| EventDedup.LargeOutputs | scripts/upgrade-portable-compaction.py:258-266 | an output takes part exactly when it is made of text parts alone and they exceed 4096 bytes |
| EventDedup.ToolEndsAre | scripts/upgrade-portable-compaction.py:287-296 | an event takes part exactly when it carries one finished tool call and nothing else |
| EventDedup.EnvelopeIsLossless | scripts/upgrade-portable-compaction.py:269-306 | every envelope expands back to the identical event |
| EventDedup.EnvelopeIsValid | scripts/upgrade-portable-compaction.py:309-333 | every envelope validates against the transcript |
| EventDedup.ValidIs | scripts/upgrade-portable-compaction.py:309-333 | exactly which stored envelopes are valid |
| EventDedup.ValidExpands | scripts/upgrade-portable-compaction.py:309-333 | a valid envelope stands for an event |
| EventDedup.OnlyUniqueOutputsAreReferenced | scripts/upgrade-portable-compaction.py:293-306 | an output becomes a reference exactly when it is unique and its event carries nothing else |
| EventDedup.UpgradeTwice | scripts/upgrade-portable-compaction.py:269-333 | upgraded data validates, expands to the original, and is not changed again |
| Upgrade.NormalizeCheckpoint | scripts/upgrade-portable-compaction.py:53-130 | the step-by-step upgrade computes the specified one, with the source's branches and refusals |
| Upgrade.UpgradeIsIdempotent | scripts/upgrade-portable-compaction.py:53-130 | a second upgrade reports no change, whatever notes it is given |
| Upgrade.UpgradeKeepsContext | scripts/upgrade-portable-compaction.py:89-130 | remaining items stay in order, at most one notes item joins, and the epoch advances exactly when something was removed or restored |
| Upgrade.UpgradeKeepsItems | scripts/upgrade-portable-compaction.py:89-121 | item by item: exactly the compactions go, every other item keeps every field but the breakpoints of its parts, and restored notes join at the end |
| Upgrade.UpgradeSetsFields | scripts/upgrade-portable-compaction.py:105-130 | the version, the owner, and what a changed context resets |
| Upgrade.OldAccepted | scripts/upgrade-portable-compaction.py:53-130 | exactly which old checkpoints are upgraded |
| Upgrade.CurrentAccepted | scripts/upgrade-portable-compaction.py:72-80 | exactly which current checkpoints are left alone |
| Upgrade.UpgradeKeepsOtherFields | scripts/upgrade-portable-compaction.py:105-130 | no other field changes, and the context's owner is the model route |
| Upgrade.RestoredNotesAreAlone | scripts/upgrade-portable-compaction.py:95-102 | restored notes are the only notes item |
| Upgrade.ValidateSplit | scripts/upgrade-portable-compaction.py:230-251 | joins rows to a valid checkpoint exactly when epochs, indices and counts agree |
| Upgrade.SplitRoundTrip | scripts/upgrade-portable-compaction.py:216-251 | splitting an upgraded checkpoint and joining the rows gives it back |

## Left out

- The rejection branch of `start_message_turn` (src/agent/turn.rs:135-184), which keeps the active execution after a failed abort, and the idle turn.
- A submit hook that fails before a turn starts: nothing has changed yet, so the start is never reached.
- Model requests, streaming and tool bodies: a model step is the operations `Step`, `Stream` and `Output` of `RunnerRuns`; that the call identities of one response are distinct is checked by the source there and stated in `Enabled`.
- Preparation.DraftKeeps: that a replacement leaves the same calls open, and brings back no guidance but delivered, is required of the rewriting hook (`Sound`); the model calls that a compaction pays for and the stop of a turn by a hook are not modelled.
- ToolStep.ExecuteTools: post-tool hooks, which may edit a result's text before it is appended, do not run.
- Recorder deadlines: the batch timer may fire at any time while the loop waits with a batch pending.
- Serialized sizes: a command's permit is given with the command, and an append's text is its bytes.
- Admission replies: the answer stands for the reply; a dropped reply channel is only logged.
- Events published outside a save (warnings, rejections, live progress) are not part of `World`; whether one could be published is an outcome of the route.
- Content validation of messages, file names and media types, apart from blankness and sizes.
- SessionFiles.SessionFileStore.Delete: deletes the selected files whole; a directory removal that fails part way, staged attachment copies and the cleanup of renamed directories are not modelled.
- SessionFiles: the commit lock makes each method atomic; permissions, links, hashing and renditions of images are not modelled.
- ContextEstimate: token estimation from bytes, and serialization of tool schemas.
- EventDedup: JSON text, duplicate keys, and rows that do not parse; events are values after parsing.
- Upgrade.NormalizeCheckpoint: a rewrite record whose reasons are not an array is refused; strings with lone surrogates do not occur.
- Database work of the upgrade script: schema checks, digests, backup, vacuum and receipts.
- SQLite, Tokio and file-system implementations, front-end widgets, prompts, manifests and settings.
