# Verification model of HiveTeam's durable runtime

HiveTeam runs coding agents in terminals and coordinates them through a local server. This project models
the parts of the server that must survive crashes, races and foreign input, and proves what they promise.
`dafny verify dfyconfig.toml` checks everything.

The models follow the server's own components. Where the source changes state step by step there is a class
or a loop, each of its methods proved to compute a specification function; the promises are lemmas about those
functions and about all runs of them. External systems are small abstract state: a terminal is an input
counter with observations of its screen, Git is branches, an index and content-addressed commits, tables are
maps and sequences. A transaction is one step. What the outside world does (keystrokes, crashes, other
processes, failing commands) is a parameter, and every theorem quantifies over it.

**Codex message delivery** (`CodexMessageEncoding`, `CodexPasteRecognition`, `CodexPasteLayout`, `CodexComposer`,
`CodexComposerTests`, `CodexReportJournal`, `CodexDeliveryTrace`, `CodexReportDelivery`, `CodexDeliveryStages`,
`CodexDeliverySafety`, `DeliveryRecheck`, `MessageDelivery`, `MessageCalls`, `CodexPasteContent`,
`CodexDeliveryReceipt`, `DeliveryQueue`, `CodexInitialPrompt`). A message is typed into a terminal and counts as
delivered only when Codex journals it. The models cover the encoding against a decoder written from section 7 of RFC
8259, the matcher that decides whether a paste is completely on screen, the incremental journal reader against a
whole-file specification, the polling loop that uses both between its checkpoints, the recheck that looks for the
receipt of an uncertain message, the durable life of a message over all attempts, launches, process deaths and
resends, the order in which the messages of a recipient are attempted, and the quoting of a prompt that is passed as a
launch argument. A history of events is carried along, with the text of each paste and the screen in front of each
Enter, and the safety theorems are statements about that history.

**Integration candidates** (`IntegrationCandidates`, `IntegrationGate`, `IntegrationSafety`, `IntegrationRecovery`,
`IntegrationRuntime`). A reviewed merge commit is installed into a target branch by compare-and-swap. The call
may crash or throw after each of its steps, and others may change the repository in the middle of it.

**Controlled commit** (`ControlledCommitTree`, `ControlledCommit`). A worker's checkout is committed without
running any of its hooks: the tree is an overlay of baseline and working files, built behind the index lock,
with a single commit point.

**Runs** (`RunLifecycle`, `AgentRunStarter`, `AgentRunStore`). Process exits race with the start that is still
registering the process; tokens belong to one run; a resume flag decides which agents return after a restart.

**Conversation transcript** (`ConversationTranscript`, `ConversationMeaning`, `ConversationAnswers`,
`ConversationProcess`, `ConversationParser`). The limits of the parser are a parameter, so the parser without limits is
the same function. What it finds in a transcript is told a second time, from the lines of each turn alone, and the two
are proved to agree.

**Session capture, queues, ledger, cursors** (`CodexSessionIndex`, `SessionCapture`, `OperationQueue`, `Clarification`,
`DispatchLedger`, `CursorPaging`, `AttentionPaging`).

## Where the source does less than it seems to promise

Each of these is kept in the model as it is, and a lemma says exactly when the promise holds.

- `JSON.stringify` leaves U+007F to U+009F alone, so an encoded message is free of C0 controls only
  (`HighControlsPassThrough`).
- `deliverCodexReport` on its own compares input sequences. If a checkpointed paste was refused and somebody else has
  written once, a direct retry takes the draft for its own when the screen passes the test, for which in a session
  not yet known one chip of the same length is enough (`RetryCanSubmitForeignInput`, `EveryMessageCanBeMistaken`). The
  record store prevents that retry: a message with a checkpoint never becomes pending without a resend
  (`UncertainUntilResent`), so the whole-run theorems hold without this exception.
- A dispatch that is reported or cancelled resolves its pending deliveries, but not one that is being attempted. If that
  attempt fails before any write, or the process ends, the message is pending again for a closed dispatch
  (`PendingBehindClose`, `MayBePendingBehindClose`, `PendingBehindReportExample`). It is never typed while the dispatch
  stays closed, but an attempt that had announced its write is left uncertain, and its recipient blocked until a
  person decides, although nothing was typed (`ClosedInputIsRefused`, `UnknownThoughNeverTypedExample`).
- Restoring a backup leaves every unfinished message to a person, so several of one recipient can then be busy at once
  (`RestoreMakesManyBusy`, `AttemptedAlone`).
- An integration may fail after the branch has moved: because the checkout it finds there fails the checks (a file that
  was only touched is clean for `git status` but not for `git diff-files`; somebody holds the index lock; somebody has
  changed the checkout), because `git read-tree` refuses to write the files, because a command behind the update throws
  or the update itself has no status, or, with the integration recorded, because the closing view throws
  (`IntegrateExplained`, `RefusedAfterMoveExample`, `TouchedFileExample`). Otherwise the candidate stays `integrating`,
  and a later attempt completes it as soon as the checkout passes the checks (`AttemptStep`, `CrashesAreSurvived`). Until
  somebody sees to that every retry is refused, also behind a death inside `git read-tree` (`BlockedUntilChanged`,
  `DiedInReadTreeExample`).
- A controlled commit throws although its branch has moved when `git update-ref` takes effect and no exit status is seen:
  the process is killed at the time limit or by a signal, its output exceeds the buffer, or writing its input fails
  (`ReturnsIffMoved`, `ThrewBehindMoveExample`). Its index lock stays behind when `stat` fails right after the lock
  was created (`LockLeftIff`, `LockLeftExample`).
- A launch that throws after its process has exited leaves the pending exit code behind (`FailedStarts`,
  `PendingCodeLeftExample`). A start that is aborted behind its launch notifies nobody, and leaves its row open, when
  that row cannot be updated (`FailedStarts`, `AbortNotNotifiedExample`). The same holds for an exit whose row cannot be
  updated, which also leaves the token valid if it came behind the registration (`ExitCompletedExactlyOnce`,
  `TokenLivesWithItsRun`).
- The resume flag of an agent is lost when a new run starts before the newest one by the clock
  (`ClockStepLosesMark`, `MarkLostIff`).
- A listing that repeats a session id lets two waiters capture it (`RepeatedListingCapturesTwice`). A listing or a filter
  that throws stops a flush without removing anybody: an aborted waiter stays, and one that was already served captures a
  second id later (`ThrowingKeepsWaiters`, `ServedTwiceExample`).

## Model

| member | source | states |
|---|---|---|
| `CodexMessageEncoding.EncodeRoundTrip` | src/server/codex-message-wire.ts:4-11 | for every text, the fixed prefix is there and decoding the JSON string behind it (section 7 of RFC 8259) gives the text back |
| `CodexMessageEncoding.EncodeInjective` | src/server/codex-message-wire.ts:7-13 | two messages never share a wire, so a receipt digest names one message |
| `CodexMessageEncoding.EncodedIsSingleLine` | src/server/codex-message-wire.ts:7-11 | for every text the wire has no C0 control, U+2028 or U+2029 |
| `CodexMessageEncoding.HighControlsPassThrough` | src/server/codex-message-wire.ts:7-11 | a control U+007F..U+009F is in the wire if and only if it is in the message: the freedom from controls ends at C0 |
| `CodexPasteRecognition.RecognitionSound` | src/server/codex-message-wire.ts:30-89 | an accepted screen splits the whole text into consecutive pieces, each visible character for character, behind a chip whose number is its length, or (raw text) a line break in front of the first character of a composer row, at most one a row, or at the end |
| `CodexPasteRecognition.EncodedExactCover` | src/server/codex-message-wire.ts:91-92 | for a wire the pieces are only visible characters and chips, and their lengths add up to the wire |
| `CodexPasteRecognition.NoChipMeansEquality` | src/server/codex-message-wire.ts:51-60 | without a chip on screen a wire is accepted if and only if the rows show exactly that wire |
| `CodexPasteRecognition.ChipsAreLabels` | src/server/codex-message-wire.ts:65-65 | every chip the matcher uses is a label at its place on screen |
| `CodexPasteRecognition.LabelsAreChips` | src/server/codex-message-wire.ts:65-65 | no label is missed: each lies in a chip of the list |
| `CodexPasteRecognition.WrapRecognised` | src/server/codex-message-wire.ts:36-43 | however a wire is wrapped into rows, it is accepted if and only if the rows above the first blank one hold all of it |
| `CodexPasteRecognition.EncodedWrapComplete` | src/server/codex-message-wire.ts:30-92 | every wrapping of every encoded message without a blank continuation row is the complete paste |
| `CodexPasteRecognition.CompleteVisiblePaste` | src/server/codex-message-wire.ts:30-89 | the loops over rows compute the specification of the matcher |
| `CodexPasteRecognition.ConsumeDisplay` | src/server/codex-message-wire.ts:61-89 | the loop over the chips, including the final line breaks, computes the specification |
| `CodexPasteRecognition.PassChip` | src/server/codex-message-wire.ts:66-80 | one chip: its literal text, or the skip of its exact count, or a refusal |
| `CodexPasteRecognition.Inline` | src/server/codex-message-wire.ts:47-60 | the character loop with its row breaks computes the specification |
| `CodexPasteLayout.FirstRowIs` | src/server/codex-message-wire.ts:32-34 | the text of the first row: blanks, the prompt and a space, and one line behind them |
| `CodexPasteLayout.GatheredRows` | src/server/codex-message-wire.ts:36-43 | the continuation rows up to the first blank one must be indented; their texts follow each other, and rows break exactly where they begin |
| `CodexPasteLayout.ChipIsLabel` | src/server/codex-message-wire.ts:65-65 | every chip the matcher finds is a label with its number |
| `CodexPasteLayout.LabelIsChip` | src/server/codex-message-wire.ts:65-65 | every label, with any blanks in it, is found with its number and its end |
| `CodexPasteLayout.PassedIff` | src/server/codex-message-wire.ts:66-80 | when a chip is passed by its own text, when by its number, and when not at all |
| `CodexPasteLayout.CountReads` | src/server/codex-message-wire.ts:76-76 | the number on a chip is read back, whatever commas are in it |
| `CodexComposer.ShowsMeans` | src/server/codex-report-delivery.ts:180-187 | a screen that passes the test of the loop accounts for what was pasted: an encoded wire piece by piece with nothing left over; a bound plain text so, or by its marker or a chip at the prompt |
| `CodexComposer.ChipPassesForText` | src/server/codex-prompt-submission.ts:26-30 | for every text: one chip of its length passes the compact test, whoever pasted it |
| `CodexComposerTests.TaggedIff` | src/server/codex-report-delivery.ts:180-187 | a paste into a known session is recognised exactly by its marker from the prompt on, or by a chip behind the prompt |
| `CodexComposerTests.CompactIff` | src/server/codex-prompt-submission.ts:26-30 | a paste into a session yet unknown is recognised exactly by the number on a single chip, or else by its whole text, white space aside |
| `CodexComposerTests.ShowsIff` | src/server/codex-report-delivery.ts:180-187 | which of the tests applies to which draft |
| `CodexReportJournal.JudgeFound` | src/server/codex-report-journal.ts:103-111 | a log is answered `found` if and only if some complete line is a matching receipt and no line before it fails to parse; it is undecided if and only if every complete line is blank or another record |
| `CodexReportJournal.ReportJournalOffset` | src/server/codex-report-journal.ts:19-33 | a returned offset lies in the file and follows a newline |
| `CodexReportJournal.OffsetIsLastBoundary` | src/server/codex-report-journal.ts:19-33 | no newline follows the offset, and it fails exactly when the last 64 KiB hold no newline |
| `CodexReportJournal.OffsetSkipsOldRecords` | src/server/codex-report-delivery.ts:153-172 | a reader started at the offset sees exactly the records completed later, for every later content of the file |
| `CodexReportJournal.ReportJournalReader.Poll` | src/server/codex-report-journal.ts:91-120 | one poll gives the verdict of the whole-file specification for the bytes read so far; caught up without `found` means end of file on a line boundary |
| `CodexReportJournal.ReportJournalReader.Absorb` | src/server/codex-report-journal.ts:100-111 | buffering one chunk refines the specification and keeps only the unfinished line |
| `CodexReportJournal.ReportJournalReader.RefinesLonger` | src/server/codex-report-journal.ts:88-93 | appending to the file keeps what the reader knows |
| `CodexReportJournal.Scan` | src/server/codex-report-journal.ts:102-111 | the line loop stops behind the first deciding record or at the last newline |
| `CodexReportJournal.Follow` | src/server/codex-report-journal.ts:82-121 | for any chunking and any appends, polling to the end gives the verdict of the whole file, unless some record exceeds the 8 MiB limit |
| `CodexReportJournal.ReportJournalReader.Read` | src/server/codex-report-journal.ts:91-120 | the same poll for a journal of which nothing is assumed: verdict and state are those of the whole of the bytes read |
| `CodexReportJournal.LookIs` | src/server/codex-report-journal.ts:91-120 | what one poll says, and how much it reads, told from the file and the lines of what was read |
| `CodexDeliveryTrace.CheckpointPrecedesHandoff` | src/server/codex-report-delivery.ts:145-174 | in a safe history each paste or launch stands directly behind the durable checkpoint of its own session |
| `CodexDeliveryTrace.HandedOverOnce` | src/server/codex-report-delivery.ts:71-88 | between two handoffs of a message somebody has asked for a resend |
| `CodexDeliveryTrace.AtMostThreeEnters` | src/server/codex-report-delivery.ts:189-213 | four Enters need a resend in between |
| `CodexDeliveryTrace.EnterOverUntouchedPaste` | src/server/codex-report-delivery.ts:175-215 | behind each Enter stands this message's own paste, with no foreign key and no new checkpoint in between, and the screen read in front of the Enter shows what was pasted |
| `CodexReportDelivery.ReportDelivery.DeliverCodexReport` | src/server/codex-report-delivery.ts:46-227 | the polling loop over mutable state computes the specified attempt |
| `CodexReportDelivery.ReportDelivery.PollTerminal` | src/server/codex-report-delivery.ts:97-216 | one iteration: durable checkpoint, counters, history and outcome are those of the specification |
| `CodexReportDelivery.ReportDelivery.Prepare` | src/server/codex-report-delivery.ts:98-143 | session binding, journal reader, guard, run status and dialog in the order of the source |
| `CodexReportDelivery.ReportDelivery.ReadReceipt` | src/server/codex-report-journal.ts:91-120 | the incremental reader gives the verdict of the specification for all bytes read since the offset |
| `CodexReportDelivery.ReportDelivery.OfferPaste` | src/server/codex-report-delivery.ts:145-174 | the first checkpoint and the paste |
| `CodexReportDelivery.ReportDelivery.SubmitPaste` | src/server/codex-report-delivery.ts:175-215 | ownership check, visibility, flush key and bounded Enters |
| `CodexReportDelivery.ReportDelivery.CheckpointAndWrite` | src/server/codex-report-delivery.ts:85-88 | the checkpoint is durable before the write, which the guard may refuse |
| `CodexReportDelivery.ReportDelivery.TypeInto` | src/server/agent-manager.ts:272-278 | foreign input moves the counter, terminal replies do not |
| `CodexDeliverySafety.DeliverKeeps` | src/server/codex-report-delivery.ts:46-227 | every call, also one that retries an uncertain paste, keeps: no second paste, at most three Enters, saved sequence + keystrokes = counter + lost writes |
| `CodexDeliverySafety.FirstDeliveryKeeps` | src/server/codex-report-delivery.ts:46-227 | a call that starts without a checkpoint presses keys only over its own untouched paste, and Enter only over a screen that shows that paste |
| `CodexDeliverySafety.LaunchedNeverPasted` | src/server/codex-report-delivery.ts:71-75 | a message passed as a launch argument is never pasted: the call changes nothing |
| `CodexDeliverySafety.SequenceMeansOwnership` | src/server/codex-report-delivery.ts:175-179 | the saved sequence equals the counter if and only if as many writes were lost as others have typed; with no loss, if and only if nobody has typed |
| `CodexDeliverySafety.PasteCanBeLost` | src/server/delivery-input-guard.ts:31-36 | a write may be refused behind its durable checkpoint |
| `CodexDeliverySafety.RetryCanSubmitForeignInput` | src/server/codex-report-delivery.ts:175-215 | the equation is exact: a lost paste, one foreign write and a direct retry over a screen that passes the test press Enter over input that was never pasted |
| `CodexDeliverySafety.EveryMessageCanBeMistaken` | src/server/codex-report-delivery.ts:175-187 | for every such message a concrete run of this kind: a foreign paste of the same length is submitted for it |
| `CodexDeliveryStages.BindsWhen` | src/server/codex-report-delivery.ts:98-119 | when a session is bound to the checkpoint and which, where reading starts, and when that throws |
| `CodexDeliveryStages.StopsWhen` | src/server/codex-report-delivery.ts:126-143 | exactly what stops an attempt: a cancelled or disturbed guard, an ended run, a checkpoint of another run, a dialog |
| `CodexDeliveryStages.SendsWhen` | src/server/delivery-input-guard.ts:17-37 | a write takes effect if and only if its checkpoint was stored and the guard lets it through; one that was stored only is lost |
| `CodexDeliveryStages.PastesWhen` | src/server/codex-report-delivery.ts:145-174 | a paste goes out if and only if the composer is empty in a fitting session, its file has a place to read from, the checkpoint is stored and the guard lets it through; and which checkpoint |
| `CodexDeliveryStages.PressesWhen` | src/server/codex-report-delivery.ts:175-215 | behind the paste: exactly when the cursor key is pressed, exactly when Enter, and what is stored |
| `CodexDeliveryStages.WaitsWhen` | src/server/codex-report-delivery.ts:175-215 | exactly when the loop throws, and when it waits, without a key |
| `CodexDeliveryReceipt.DeliveredHasReceipt` | src/server/codex-report-delivery.ts:120-121 | a call that reports success, also a retry, has a matching receipt among the complete lines of the journal behind its checkpoint's offset, with nothing malformed before it |
| `CodexDeliveryReceipt.DeliveredReceiptIsNew` | src/server/codex-report-delivery.ts:153-172 | in a known session the lines that hold the receipt are exactly those completed since the poll that pasted |
| `CodexDeliveryReceipt.ConfirmedHasReceipt` | src/server/team-delivery-runtime.ts:88-134 | over all runs of attempts, launches, rechecks, deaths and resends: a confirmed message was confirmed by its worker, or by an attempt or a recheck that met its receipt in the journal, behind the offset of the checkpoint the record still has |
| `CodexDeliveryReceipt.CooperativeDelivery` | src/server/codex-report-delivery.ts:97-216 | in a known session an undisturbed attempt pastes once, flushes on Windows, presses Enter once and is confirmed by the record behind its offset |
| `DeliveryRecheck.ReadOnFinds` | src/server/team-delivery-runtime.ts:105-132 | a recheck that finds its receipt, also with a reader kept from earlier ones and over malformed lines, has it among the complete lines of a growing journal behind the checkpoint's offset |
| `CodexPasteContent.PastesAreTheMessage` | src/server/codex-report-delivery.ts:70-173 | over all runs every paste, also a lost one, is that of one delivery call and carries its whole message: on Windows the announcement and a JSON string that decodes to it, elsewhere the message itself; and it was offered at a screen whose last prompt row holds nothing but the prompt or the placeholder |
| `CodexPasteContent.PayloadIsMessage` | src/server/codex-report-delivery.ts:70-70 | the message is the text up to its trailing white space, an empty line and the marker on a line of its own, line for line and without carriage returns; if there were none before, exactly that concatenation |
| `CodexPasteContent.UnixBreaksKeepLines` | src/server/codex-report-delivery.ts:70-70 | replacing carriage returns keeps every line, leaves none of them, and changes nothing else |
| `CodexPasteContent.LinesTell` | src/server/codex-report-delivery.ts:70-70 | texts without carriage returns that have the same lines are the same |
| `CodexPasteContent.EmptyMeansBare` | src/server/codex-prompt-submission.ts:11-20 | the composer is taken for empty if and only if the last row that begins with the prompt shows nothing behind it, or the placeholder alone |
| `MessageDelivery.HandedToCodexOnce` | src/server/message-delivery-store.ts:96-259 | over all attempts, timeouts, deaths, launches and new runs a message is handed to Codex at most once between two explicit resends, each time behind a durable checkpoint |
| `MessageDelivery.EntersOnlyOverOwnPaste` | src/server/team-delivery-runtime.ts:135-286 | over all runs every Enter goes out over the message's own untouched paste, at a screen that accounts for the pasted text: an encoded wire piece by piece, with nothing left over |
| `MessageDelivery.ThreeEntersPerResend` | src/server/team-delivery-runtime.ts:135-286 | over all runs at most three Enters between two resends |
| `MessageDelivery.UncertainUntilResent` | src/server/message-delivery-store.ts:206-259 | a message with a checkpoint becomes pending again only by an explicit resend, and keeps that checkpoint, but for the session in which a recheck finds its receipt |
| `MessageDelivery.AttemptEnds` | src/server/message-delivery-store.ts:206-230 | where an attempt leaves a message: confirmed exactly by a delivery, uncertain exactly with a checkpoint and no delivery, else pending, with a person or given up, each exactly by its kind of failure and the fifth attempt |
| `MessageDelivery.RecheckKeeps` | src/server/team-delivery-runtime.ts:88-134 | a recheck writes nothing to a terminal and changes the record only to `confirmed`, with the session it was bound to |
| `MessageDelivery.DeliveryRuntime.DeliverPending` | src/server/team-delivery-runtime.ts:135-286 | claim, attempt and settlement compute the specified step |
| `MessageDelivery.DeliveryRuntime.LaunchInitial` | src/server/codex-initial-dispatch.ts:104-146 | claim, checkpoint and `write_started` are durable before the process is spawned |
| `MessageDelivery.DeliveryRuntime.Recover` | src/server/message-delivery-store.ts:96-109 | an interrupted attempt is unknown if it had started to write, else pending |
| `MessageDelivery.DeliveryRuntime.Failed` | src/server/message-delivery-store.ts:206-230 | where a failed attempt goes |
| `MessageDelivery.DeliveryRuntime.Settle` | src/server/team-delivery-runtime.ts:248-279 | confirmation, failure or recovery, also when an acknowledgement came first |
| `MessageDelivery.DeliveryRuntime.Recheck` | src/server/team-delivery-runtime.ts:88-134 | binding, the kept or new reader, up to 32 reads and the confirmation compute the specified step, also when reading, binding or storing throws |
| `MessageDelivery.DeliveryRuntime.ResolveByPerson` | src/server/message-delivery-store.ts:236-259 | only a resend clears the checkpoint |
| `MessageCalls.ResolveIs` | src/server/message-delivery-store.ts:236-259 | what a settlement or a resend by a person changes, and when it is refused |
| `MessageCalls.LaunchIs` | src/server/codex-initial-dispatch.ts:104-146 | when a message is launched with its recipient, that it is uncertain from the claim on, and which events that leaves |
| `MessageCalls.OutsideIs` | src/server/message-delivery-store.ts:96-109 | what a restart, the restore of a backup and a new report revision do to a message |
| `MessageCalls.AcknowledgedAttempt` | src/server/team-delivery-runtime.ts:433-450 | a message acknowledged during its attempt is confirmed, however the attempt ends |
| `MessageCalls.RecheckRefuses` | src/server/team-delivery-runtime.ts:88-117 | when a recheck cannot start, and what becomes of the kept reader |
| `MessageCalls.RecheckIs` | src/server/team-delivery-runtime.ts:105-134 | a recheck confirms exactly if its reads find the receipt and the record is stored; when its reader is kept |
| `MessageCalls.ReadOnIs` | src/server/team-delivery-runtime.ts:118-132 | at most 32 reads, as long as there is more |
| `MessageCalls.ReadOnceIs` | src/server/codex-report-journal.ts:91-120 | what one read of a recheck answers, and where the reader goes on behind a malformed line |
| `MessageCalls.BehindIs` | src/server/codex-report-journal.ts:102-111 | what lies behind the first line that decides |
| `DeliveryQueue.OneBusyPerRecipient` | src/server/message-delivery-store.ts:17-26 | until a backup is restored, at most one message of a recipient is attempted, uncertain or waiting for a person |
| `DeliveryQueue.InOrderPerRecipient` | src/server/message-delivery-store.ts:110-131 | a message that was ever attempted has only confirmed or resolved messages before it, through every failure, recovery, resend and restore |
| `DeliveryQueue.FirstPendingMayBeClaimed` | src/server/message-delivery-store.ts:110-131 | without a busy row the first pending row of a recipient may be claimed |
| `DeliveryQueue.ClaimKeeps` | src/server/message-delivery-store.ts:110-131 | a claim keeps the invariant |
| `DeliveryQueue.AfterKeeps` | src/server/message-delivery-store.ts:96-259 | every call keeps the invariant |
| `DeliveryQueue.Deliveries.ClaimRow` | src/server/message-delivery-store.ts:110-131 | exactly the pending rows that nothing blocks are claimed |
| `DeliveryQueue.Deliveries.RecoverRows` | src/server/message-delivery-store.ts:96-109 | the recovery loop over all attempting rows |
| `DeliveryQueue.Deliveries.FailRow` | src/server/message-delivery-store.ts:206-230 | where a failed row goes |
| `DeliveryQueue.Deliveries.ResolveRow` | src/server/message-delivery-store.ts:236-259 | which rows a person may resolve or resend |
| `DeliveryQueue.AttemptedAlone` | src/server/message-delivery-store.ts:110-131 | in every reachable state, also behind a restore, a message being attempted is its recipient's only busy one |
| `DeliveryQueue.EntersState` | src/server/message-delivery-store.ts:96-259 | for each of the six states, exactly which calls lead into it and from where |
| `DeliveryQueue.CallsTakeEffect` | src/server/message-delivery-store.ts:96-259 | each of these calls does lead there; claims alone count attempts, attempts alone set `write_started`, resends alone clear it |
| `DeliveryQueue.ClaimedIff` | src/server/message-delivery-store.ts:110-131 | a claim succeeds if and only if the row is pending, nothing of its recipient is attempting, uncertain or manual, and nothing earlier is pending |
| `DeliveryQueue.RestoreMakesManyBusy` | src/server/data-restore.ts:85-85 | a restore leaves several messages of one recipient to a person |
| `DeliveryQueue.Deliveries.SupersedeRow` | src/server/report-outbox-store.ts:140-142 | a new report revision resolves an unwritten delivery, also one being attempted |
| `CodexInitialPrompt.QuotedLengthExact` | src/server/codex-initial-prompt.ts:16-19 | the measured length is the length of the quoted argument |
| `CodexInitialPrompt.ReplacementsEscape` | src/server/codex-initial-prompt.ts:18-19 | the two replacements together are the quoting |
| `CodexInitialPrompt.ReadUndoesEscape` | src/server/codex-initial-prompt.ts:16-19 | reading a quoted argument gives it back, whatever it holds and whatever follows |
| `CodexInitialPrompt.CommandLineRoundTrip` | src/server/codex-initial-prompt.ts:36-42 | reading a whole command line gives all arguments back in order |
| `CodexInitialPrompt.LineLength` | src/server/codex-initial-prompt.ts:42-42 | the fold is the length of that command line |
| `CodexInitialPrompt.PrepareInitialPrompt` | src/server/codex-initial-prompt.ts:42-47 | a prompt is refused exactly when the line reaches 32767 characters, and never cut |
| `CodexSessionIndex.ReadFirstLine` | src/server/codex-session-index.ts:46-65 | for any sizes of the single reads: the bytes before the first newline within the limit, else the whole file if it is shorter than the limit, else nothing |
| `CodexSessionIndex.CacheIsTransparent` | src/server/codex-session-index.ts:28-44 | over any calls and any changes of files, also within a call, the cache returns what a direct read would have returned at the start or the end of the call, and keeps its limit |
| `CodexSessionIndex.CachedReadIsDirectRead` | src/server/codex-session-index.ts:28-44 | one call, with a file that may change between fingerprint and read |
| `CodexSessionIndex.CacheStaysValid` | src/server/codex-session-index.ts:28-44 | an entry whose fingerprint is current holds the current value; one entry a path |
| `CodexSessionIndex.FileCache.Read` | src/server/codex-session-index.ts:28-44 | lookup, read, reinsertion and eviction of the oldest |
| `IntegrationSafety.EvidenceInEveryState` | src/server/integration-candidate-runtime.ts:153-160 | in every reachable state an integrating or integrated candidate has a review of exactly its commit, an acceptance, the id of a verification that passed for it, and source and target as ancestors |
| `IntegrationSafety.EveryMoveJustified` | src/server/integration-candidate-git.ts:168-183 | every branch update ever made was a compare-and-swap from the recorded target to the candidate commit with that evidence complete |
| `IntegrationSafety.RecordedOnce` | src/server/integration-candidate-runtime.ts:54-58 | an integration is recorded at most once, and exactly for the integrated candidates |
| `IntegrationSafety.IntegratedIsFinal` | src/server/integration-candidate-runtime.ts:462-540 | no operation changes an integrated candidate |
| `IntegrationSafety.OnlyMovesMoveBranches` | src/server/integration-candidate-git.ts:176-182 | without a foreign change inside the call, branches change only by one such move |
| `IntegrationSafety.OthersUntouched` | src/server/integration-candidate-runtime.ts:454-525 | integrating one candidate leaves every other one alone |
| `IntegrationSafety.GateProves` | src/server/integration-candidate-runtime.ts:153-172 | what `can_integrate` checks is exactly the evidence the invariant needs |
| `IntegrationSafety.IntegrateKeeps` | src/server/integration-candidate-runtime.ts:454-525 | an integration call keeps the invariant, with crashes and foreign changes at any of its steps |
| `IntegrationSafety.HandleKeeps` | src/server/integration-candidate-runtime.ts:179-228 | preparation keeps the invariant |
| `IntegrationSafety.EvidenceActionsKeep` | src/server/integration-candidate-runtime.ts:353-453 | continuing, reviewing, accepting and abandoning keep the invariant; continuing drops the evidence with the old commit |
| `IntegrationSafety.AfterKeeps` | src/server/integration-candidate-runtime.ts:33-548 | every action keeps the invariant |
| `IntegrationRecovery.IntegrateExplained` | src/server/integration-candidate-runtime.ts:454-525 | a call that returns leaves the checkout on the branch with index and files of the candidate and records it; one that moved the branch fails if and only if the checkout it finds there fails the checks (branch, index lock, index, `diff-files`) or `read-tree`, or a command behind the update, the store or the closing view throws, or the update has no status; the candidate then stays `integrating`, unless the record was already made |
| `IntegrationRecovery.RefusalLeavesTarget` | src/server/integration-candidate-git.ts:168-213 | without a foreign change, over files nobody has touched and an index nobody holds, with commands that work behind the update, a failing call has not touched the target |
| `IntegrationRecovery.RefusedAfterMoveExample` | src/server/integration-candidate-git.ts:205-212 | a concrete call that fails after the branch has moved, because `read-tree` refuses |
| `IntegrationRecovery.TouchedFileExample` | src/server/integration-candidate-git.ts:204-204 | a concrete target with a touched file: clean for `status`, the branch moves, `diff-files` fails, and so does every retry, however many |
| `IntegrationRecovery.DiedInReadTreeExample` | src/server/integration-candidate-git.ts:205-212 | a concrete death inside `read-tree` that leaves its lock: every retry is refused |
| `IntegrationRecovery.BlockedUntilChanged` | src/server/integration-candidate-git.ts:184-213 | while the checkout behind a moved branch fails the checks, no retry, however many, succeeds or changes anything |
| `IntegrationRecovery.AttemptStep` | src/server/integration-candidate-runtime.ts:462-525 | from any state a crash or a throw can leave between the steps, over an untouched and unheld checkout, an attempt with the same versions that is not itself cut short ends integrated; one that is ends in such a state again |
| `IntegrationRecovery.CrashesAreSurvived` | src/server/integration-candidate-runtime.ts:462-525 | any number of crashes and throwing commands between the steps, and inside `read-tree` if it leaves files and index clean: the first attempt that is not cut short ends integrated, recorded once, branch at the commit, index its tree, branch moved once over all attempts |
| `IntegrationGate.IntegrationStartsIff` | src/server/integration-candidate-runtime.ts:86-113 | a call on a prepared candidate does something if and only if the source has the recorded repository, commit, report, target, verification and approving review and nothing uncommitted, the directory is clean at the commit, the newest verification passed for it and was accepted, the versions named are these, the agents are idle and the target is unchanged |
| `IntegrationGate.MoveNeedsFacts` | src/server/integration-candidate-runtime.ts:462-525 | every branch update rests on all of this, also in a call that takes up an interrupted one |
| `IntegrationGate.RecordNeedsMove` | src/server/integration-candidate-runtime.ts:462-525 | an integration is recorded only in a call that moves the branch or finds it moved |
| `IntegrationGate.RecordNeedsCheckout` | src/server/integration-candidate-git.ts:184-213 | nor over a checkout that is on another branch, held, changed, touched, or of another index |
| `IntegrationGate.GateOpens` | src/server/integration-candidate-runtime.ts:496-524 | with all of this an undisturbed call integrates: branch, index, record and result |
| `IntegrationGate.EligibleIs` | src/server/integration-candidate-runtime.ts:153-172 | `eligible` and `can_integrate`, field by field |
| `IntegrationGate.InsertIs` | src/server/integration-candidate-runtime.ts:300-345 | a new candidate is queued, without commit and without any evidence |
| `IntegrationGate.IntegratedAnswers` | src/server/integration-candidate-runtime.ts:494-501 | an integrated candidate answers exactly the calls that name its own versions, and nothing happens again |
| `IntegrationGate.PreparationIs` | src/server/integration-candidate-runtime.ts:179-228 | a queued candidate becomes stale if and only if the source has changed, and prepared, with the commit of the merge, if and only if the merge is finished |
| `IntegrationGate.ContinueIs` | src/server/integration-candidate-runtime.ts:353-384 | a failed or conflicted candidate is continued, without evidence, if and only if the source is unchanged and its own merge is finished |
| `IntegrationGate.FinishGitIs` | src/server/integration-candidate-git.ts:112-153 | a merge counts as finished if and only if it is committed, or is that of exactly this source into exactly this target, without conflicts and behind both |
| `IntegrationGate.ReviewIs` | src/server/integration-candidate-runtime.ts:408-427 | when a review is saved, and that it takes the acceptance away |
| `IntegrationGate.AcceptIs` | src/server/integration-candidate-runtime.ts:428-453 | when an acceptance is saved, and for which verification |
| `IntegrationGate.AbandonIs` | src/server/integration-candidate-runtime.ts:526-545 | when a candidate is abandoned |
| `IntegrationRuntime.Runtime.constructor` | src/server/integration-candidate-runtime.ts:59-66 | startup turns interrupted preparations into failed ones and nothing else |
| `IntegrationRuntime.Runtime.Prepare` | src/server/integration-candidate-runtime.ts:179-228 | the queue handler computes the specified step |
| `IntegrationRuntime.Runtime.IntegrateVersion` | src/server/integration-candidate-runtime.ts:454-525 | recovery path and normal path, with every place where they can stop, compute the specified step |
| `ControlledCommitTree.BuildTree` | src/server/execution-policy-git.ts:470-555 | a tree is built if and only if baseline and files allow it; `.hive`, each denied root and every path below one have their baseline entry or absence, every other known path is there exactly if its file is, with its content and mode, and there are no other paths |
| `ControlledCommitTree.CollectUpdates` | src/server/execution-policy-git.ts:514-553 | the loop and the joint hashing keep names, modes and object ids aligned: every update is the one its path needs |
| `ControlledCommitTree.OverlayReached` | src/server/execution-policy-git.ts:548-555 | updates that each are the needed one, for exactly the considered paths, turn the baseline into the overlay |
| `ControlledCommitTree.PreservedPathsDoNotLeak` | src/server/execution-policy-git.ts:518-523 | files at or below `.hive` or a denied root have no influence on the tree, nor on whether there is one |
| `ControlledCommitTree.ShieldedForms` | src/server/execution-policy-git.ts:519-522 | the shielded paths are exactly `.hive`, each denied root, and what lies below one of them |
| `ControlledCommitTree.OverlayMeans` | src/server/execution-policy-git.ts:518-555 | the overlay, path by path, and the exact condition for building it |
| `ControlledCommitTree.OverlayIsStable` | src/server/execution-policy-git.ts:556-559 | a second commit over unchanged files finds no change |
| `ControlledCommit.ReturnsIffMoved` | src/server/execution-policy-git.ts:596-633 | the call returns if and only if its Git process moved the branch and its exit status was seen; the commit has the overlay tree and the expected head as parent; only an update without a status makes the two differ |
| `ControlledCommit.ErrorsLeaveBranch` | src/server/execution-policy-git.ts:310-633 | on every error the branch is unchanged, save for an update that took effect without a status; on a return it moved from the expected head to the new commit |
| `ControlledCommit.PublishedOverlaysDisk` | src/server/execution-policy-git.ts:518-561 | every published commit holds that tree and has the expected head as parent |
| `ControlledCommit.MovedBehindChecks` | src/server/execution-policy-git.ts:506-600 | the branch moves only behind all checks: free lock, readable files, something to commit, own lock file, intact checkout, unchanged index |
| `ControlledCommit.ReturnsIff` | src/server/execution-policy-git.ts:343-633 | undisturbed, a commit is returned if and only if nothing on the way fails, the lock is free, the files are readable and there is something to commit |
| `ControlledCommit.HistoryIsLinear` | src/server/execution-policy-git.ts:605-633 | over any number of calls, whatever fails in them, the published commits form a linear history from the first head, none lost, each with its predecessor as parent |
| `ControlledCommit.TreesStack` | src/server/execution-policy-git.ts:470-561 | and each published commit holds the overlay of its call's files on the tree of its predecessor, from which it differs |
| `ControlledCommit.LockNeverLeft` | src/server/execution-policy-git.ts:316-342 | after every exit the own index lock was removed or became the index, unless `stat`, `close` or the removal failed |
| `ControlledCommit.LockLeftIff` | src/server/execution-policy-git.ts:506-513 | undisturbed, the lock stays if and only if it was created, did not become the index and one of these three failed; `stat` failing once leaks it |
| `ControlledCommit.ForeignLockKept` | src/server/execution-policy-git.ts:322-326 | a lock file of another process is never removed |
| `ControlledCommit.ReturnFlagsHonest` | src/server/execution-policy-git.ts:616-633 | `index_sync_required` and `temporary_cleanup_required` say exactly what was left undone |
| `ControlledCommit.Checkout.CommitRestrictedWorkerChanges` | src/server/execution-policy-git.ts:302-634 | the call with its `try` and `finally` computes the specification; what it returns names a commit with the tree above and the expected parent |
| `ControlledCommit.Checkout.TryCommit` | src/server/execution-policy-git.ts:343-513 | up to the lock |
| `ControlledCommit.Checkout.BuildAndPublish` | src/server/execution-policy-git.ts:514-594 | tree, commit object, prepared index and the checks before the ref update |
| `ControlledCommit.Checkout.UpdateRef` | src/server/execution-policy-git.ts:595-630 | the one ref write, the commit point and the rename |
| `ControlledCommit.Checkout.CleanUp` | src/server/execution-policy-git.ts:316-342 | closing, removing the own lock, removing the temporary directory |
| `ControlledCommit.ThrewBehindMoveExample` | src/server/execution-policy-git.ts:223-239 | a concrete call that throws behind a moved branch |
| `ControlledCommit.LockLeftExample` | src/server/execution-policy-git.ts:507-513 | a concrete call in which only `stat` fails and the lock stays |
| `RunLifecycle.ExitCompletedExactlyOnce` | src/server/agent-run-starter.ts:278-406 | for every interleaving of any number of starts and exits: a returned start whose process exited has one notification, a resolved entry, no pending code and an ended row, if and only if the table could be updated; while no update fails, always; without an exit nothing was completed |
| `RunLifecycle.NeverNotifiedTwice` | src/server/agent-run-exit-handler.ts:10-33 | no interleaving notifies twice, whatever becomes of the start |
| `RunLifecycle.DeferredCompletes` | src/server/agent-run-starter.ts:399-404 | the queued microtask completes an exit that came before registration, if the table can be updated |
| `RunLifecycle.TokenLivesWithItsRun` | src/server/agent-tokens.ts:18-39 | an agent's token is valid if and only if its latest start has not failed and its exit has not been seen; an exit behind the registration must have been stored; older runs never revoke it |
| `RunLifecycle.FailedStarts` | src/server/agent-run-starter.ts:260-336 | a start that is aborted behind its launch notifies once, with its row closed as an error, if and only if that row could be closed, and leaves no pending code; one whose launch throws notifies nobody and keeps a pending code if and only if its process had exited; a registered failed launch is completed though the rollback of its recovery message throws, and left pending with nobody notified if its row was not updated |
| `RunLifecycle.AbortClosesRow` | src/server/agent-run-starter.ts:308-318 | the end of an aborted start closes its row if there is one, and makes none |
| `RunLifecycle.StartReturnsIff` | src/server/agent-run-starter.ts:326-406 | a start returns if and only if its process was launched, or the failed launch was recorded and its recovery message rolled back |
| `RunLifecycle.StepKeeps` | src/server/agent-run-starter.ts:189-406 | one step from any state keeps the invariant of a run and revokes its token exactly when its right to it ends |
| `RunLifecycle.AfterKeeps` | src/server/agent-run-starter.ts:189-406 | every step keeps the invariant of all runs and tokens |
| `RunLifecycle.BrokenMeansUnstored` | src/server/agent-run-sync.ts:48-57 | only a table update that failed, or a throwing call in front of that of a failed launch, leaves an exit uncompleted |
| `RunLifecycle.PendingCodeLeftExample` | src/server/agent-run-starter.ts:260-276 | a concrete run: exit, then a throwing launch, and the pending code stays |
| `RunLifecycle.AbortNotNotifiedExample` | src/server/agent-run-starter.ts:308-318 | a concrete run: the row cannot be closed, nobody is notified and it stays open |
| `AgentRunStarter.AgentRun.HandleAgentRunExit` | src/server/agent-run-exit-handler.ts:10-33 | the exit handler computes the specified change of run and tokens |
| `AgentRunStarter.AgentRun.OnProcessExit` | src/server/agent-run-starter.ts:189-201 | the callback, with the clearing for aborted runs |
| `AgentRunStarter.AgentRun.FinishStart` | src/server/agent-run-starter.ts:293-406 | row, registration and either the report of the failed launch or the look at the pending code |
| `AgentRunStore.LatestIsNewest` | src/server/agent-run-store.ts:299-304 | the newest-row query: latest start, then highest rowid |
| `AgentRunStore.MarkLostIff` | src/server/agent-run-store.ts:175-263 | a marked agent loses its mark in a step if and only if it is retired or deleted, or a backup is restored, or its newest run is recorded `exited` outside a shutdown, or a new run is recorded as exited or starts before the newest one |
| `AgentRunStore.StaysListed` | src/server/agent-run-store.ts:289-322 | through any number of restarts and failed runs the newest run of a marked agent is its single interrupted entry, until such a step |
| `AgentRunStore.RestartMarks` | src/server/agent-run-store.ts:342-351 | startup recovery marks every agent whose newest run never ended |
| `AgentRunStore.CheckpointSurvivesExit` | src/server/agent-run-store.ts:324-335 | the shutdown checkpoint survives every later exit of the run in this process |
| `AgentRunStore.ShutdownThenListed` | src/server/agent-run-store.ts:324-335 | from the checkpoint on, the agent stays listed |
| `AgentRunStore.ClockStepLosesMark` | src/server/agent-run-store.ts:204-211 | a concrete run with an earlier start time that takes the flag over and loses the agent |
| `AgentRunStore.StreakContinues` | src/server/agent-run-store.ts:175-263 | a run that ends outside a shutdown continues the streak of its agent exactly if it failed within ten seconds, and breaks it otherwise |
| `AgentRunStore.StreakStays` | src/server/agent-run-store.ts:215-263 | a second report of an end, another agent's run, a running run and a shutdown leave a streak alone |
| `AgentRunStore.UpdatedRow` | src/server/agent-run-store.ts:215-263 | an update touches the row of its run only, and exactly these fields |
| `AgentRunStore.ActiveRunsSurviveShutdown` | src/server/agent-runtime-close.ts:11-38 | every run that is active at close is still marked after all stops, also when its exit is recorded inside the stop |
| `AgentRunStore.StoppedRow` | src/server/agent-runtime-close.ts:11-38 | a run that exits while being stopped ends with its code; one that does not stays as it is |
| `AgentRunStore.RunTable.InsertAgentRun` | src/server/agent-run-store.ts:175-213 | the flag and the streak move to the new row |
| `AgentRunStore.RunTable.UpdatePersistedRun` | src/server/agent-run-store.ts:215-263 | status, streak and flag as specified |
| `AgentRunStore.RunTable.CheckpointShutdownRuns` | src/server/agent-run-store.ts:324-335 | the loop marks exactly the named active runs |
| `AgentRunStore.RunTable.MarkUnfinishedRunsStale` | src/server/agent-run-store.ts:342-351 | all active rows end as marked errors |
| `AgentRunStore.RunTable.CloseAgentRuntime` | src/server/agent-runtime-close.ts:5-38 | the checkpoint of exactly the active runs is the first event, before every stop |
| `ConversationTranscript.NoTruncationMeansReference` | src/server/agent-conversation-parser.ts:21-154 | for every input and every limits: if nothing is reported truncated, the whole state equals that of the parser without limits |
| `ConversationTranscript.AlwaysWithinLimits` | src/server/agent-conversation-parser.ts:34-66 | for every input at most 20 turns, 50 items a turn, 16000 UTF-16 units an item, 128000 an answer, 4000 a prompt |
| `ConversationTranscript.OutputAttachedAtMostOnce` | src/server/agent-conversation-parser.ts:139-148 | for every input no process item gets more than one output |
| `ConversationTranscript.ParseFits` | src/server/agent-conversation-parser.ts:34-74 | every limits are kept over every input |
| `ConversationTranscript.StepAgrees` | src/server/agent-conversation-parser.ts:75-149 | one line: no report of truncation means the same step as without limits |
| `ConversationTranscript.ToolOutputOnce` | src/server/agent-conversation-parser.ts:139-148 | an attached output belongs to a call whose output is noted, calls have items of their own |
| `ConversationMeaning.TurnsSay` | src/server/agent-conversation-parser.ts:38-154 | for every transcript and all limits: the turns kept are the last ones, as many as the limit allows, each with the id its first line gives, `complete` or `interrupted` as its last deciding line says, and the prompt of its last user event, else of the first user message behind it, cut to the limit |
| `ConversationMeaning.DigitsAre` | src/server/agent-conversation-parser.ts:86-86 | nameless turns are numbered in decimal |
| `ConversationAnswers.HoldsNext` | src/server/agent-conversation-parser.ts:67-70 | the map of finals holds, in the order in which ids first appeared, the latest content of each |
| `ConversationAnswers.JoinIs` | src/server/agent-conversation-parser.ts:70-70 | the contents are joined by empty lines |
| `ConversationProcess.TranscriptTells` | src/server/agent-conversation-parser.ts:67-149 | for every transcript, without limits: of each turn the answer is the join, in order of first appearance, of the latest content of each final message and new completion, and the items come in order from its comments and calls, a call with its first output behind it; every call that says something has its item, and every comment is shown, unless it was given as an answer or repeated a tool item |
| `ConversationProcess.RepetitionAddsNothing` | src/server/agent-conversation-parser.ts:128-128 | a comment that repeats the last item changes nothing |
| `ConversationProcess.AnswersAreNotRepeated` | src/server/agent-conversation-parser.ts:71-73 | behind a final message no comment is left that repeats an answer |
| `ConversationProcess.CallLine` | src/server/agent-conversation-parser.ts:130-138 | a call becomes the next item exactly if it says something and is the first of its id that does |
| `ConversationProcess.OutputLine` | src/server/agent-conversation-parser.ts:139-148 | the first output of an accepted call goes into its item, any other is ignored |
| `ConversationParser.ParseTranscript` | src/server/agent-conversation-parser.ts:21-154 | the returned turns are within the limits, have the ids, states and prompts that their lines give, and are those of the parser without limits, with the answers and items that the lines give, whenever `truncated` is false |
| `ConversationParser.VisibleNext` | src/server/agent-conversation-parser.ts:151-151 | exactly the turns without prompt, items and answer are dropped |
| `ConversationParser.Parser.OnLine` | src/server/agent-conversation-parser.ts:75-149 | the loop body computes the specified step |
| `ConversationParser.Parser.BeginTurn` | src/server/agent-conversation-parser.ts:38-51 | a new turn resets what belongs to the old one |
| `ConversationParser.Parser.ProcessItem` | src/server/agent-conversation-parser.ts:52-66 | a bounded item, the oldest dropped |
| `ConversationParser.Parser.SetAnswer` | src/server/agent-conversation-parser.ts:67-74 | finals joined and bounded, repeated commentary removed |
| `ConversationParser.Parser.OnToolCall` | src/server/agent-conversation-parser.ts:130-138 | one item per call id |
| `ConversationParser.Parser.OnToolOutput` | src/server/agent-conversation-parser.ts:139-148 | one output per call id |
| `ConversationParser.Parser.OnEvent` | src/server/agent-conversation-parser.ts:105-119 | prompts, completion and abort |
| `SessionCapture.CapturesAreExclusive` | src/server/claude-session-coordinator.ts:13-54 | since the project was last idle no id is captured twice, also when flushes throw half-way; each captured id was listed and unknown to its waiter, and the poller exists if and only if waiters do |
| `SessionCapture.NobodyWaitsInVain` | src/server/claude-session-coordinator.ts:21-54 | after each request, tick or abort that does not throw, no remaining waiter has an eligible unclaimed id |
| `SessionCapture.ThrowingKeepsWaiters` | src/server/claude-session-coordinator.ts:26-54 | a flush whose listing or filter throws removes no waiter, neither those it has served nor the aborted one |
| `SessionCapture.ServedTwiceExample` | src/server/claude-session-coordinator.ts:31-52 | a concrete run in which a waiter served in front of a throw captures a second id |
| `SessionCapture.ThrowsOnlyIf` | src/server/claude-session-coordinator.ts:26-36 | a flush throws only through the listing, or the filter of a waiter that is offered an unclaimed id new to it |
| `SessionCapture.RepeatedListingCapturesTwice` | src/server/claude-session-coordinator.ts:44-46 | a listing that repeats an id gives it to two waiters |
| `SessionCapture.EarlierFirst` | src/server/claude-session-coordinator.ts:29-54 | in every run waiters stand in the order in which they asked, and no id goes to a later one that an earlier one left waiting could have taken; each is new to its waiter, passes its filter and is accepted |
| `SessionCapture.AfterKeeps` | src/server/claude-session-coordinator.ts:75-125 | every action keeps the invariant |
| `SessionCapture.Coordinator.FlushWaiters` | src/server/claude-session-coordinator.ts:21-54 | the flush computes the specification, also when it throws in the middle of its loop, and leaves other projects alone |
| `SessionCapture.Coordinator.CaptureSessionId` | src/server/claude-session-coordinator.ts:75-125 | a request adds its waiter, starts the poller, flushes, and leaves other projects alone |
| `SessionCapture.Coordinator.AbortWaiter` | src/server/claude-session-coordinator.ts:89-94 | an abort flushes once more before it removes the waiter, and does not remove it when that flush throws |
| `DispatchLedger.MessagesWellFormed` | src/server/dispatch-message-store.ts:64-137 | in every reachable state the messages of a dispatch are numbered 1..n and every reply is to an earlier message from the other party, every answer to a question |
| `DispatchLedger.ReportedMeansRead` | src/server/dispatch-message-store.ts:174-184 | while a protocol-1 dispatch is reported, the acknowledged number covers every message to the worker |
| `DispatchLedger.DeliveriesMatchMessages` | src/server/dispatch-message-store.ts:125-134 | in every reachable state each message has one delivery, to its recipient |
| `DispatchLedger.PendingBehindClose` | src/server/dispatch-message-store.ts:185-189 | while a dispatch stays closed, a delivery of it is pending if and only if its attempt was given back, by a retryable error or a restart, and since then neither claimed, confirmed, settled nor restored from a backup; it was under way and unwritten at the close; and nothing is typed |
| `DispatchLedger.MayBePendingBehindClose` | src/server/dispatch-message-store.ts:185-189 | told at the close: exactly the deliveries under way without a write may ever be pending for the closed dispatch |
| `DispatchLedger.ClosedInputIsRefused` | src/server/team-delivery-runtime.ts:155-167 | input for a closed dispatch is refused and never typed; the delivery is resolved, or unknown if a checkpoint or the write was announced first |
| `DispatchLedger.SettledIff` | src/server/team-delivery-runtime.ts:404-432 | a person may send a message again if and only if its dispatch is open and its delivery uncertain or left to a person |
| `DispatchLedger.PendingBehindReportExample` | src/server/message-delivery-store.ts:206-230 | a concrete run: a report while the delivery waits for the composer, and a timeout |
| `DispatchLedger.UnknownThoughNeverTypedExample` | src/server/delivery-input-guard.ts:31-36 | a concrete run: a report in front of the checkpoint leaves the message uncertain though nothing was typed |
| `DispatchLedger.FailedMeansOpen` | src/server/dispatch-ledger-store.ts:406-436 | a delivery failure belongs to an open dispatch, an acceptance to a standing report that did not fail |
| `DispatchLedger.ReportSeenIff` | src/server/dispatch-message-store.ts:174-184 | `seen_seq` is accepted if and only if the dispatch has no message protocol, or it lies between the last message to the worker and the last message |
| `DispatchLedger.RequiredCovers` | src/server/dispatch-message-store.ts:55-60 | `required_seen_seq` is the highest number addressed to the actor |
| `DispatchLedger.SayKeeps` | src/server/dispatch-message-store.ts:90-137 | a new message keeps numbering and reply order |
| `DispatchLedger.SayIff` | src/server/dispatch-message-store.ts:64-137 | when a message is accepted, and exactly what is added for it |
| `DispatchLedger.ConditionalCalls` | src/server/dispatch-ledger-store.ts:406-505 | cancelling, reopening, accepting, submitting and failing: each with its condition and its whole effect |
| `DispatchLedger.AfterKeeps` | src/server/dispatch-ledger-store.ts:319-505 | every ledger operation and every step of a delivery keeps the invariant |
| `DispatchLedger.CountPendingByWorker` | src/server/dispatch-ledger-store.ts:533-541 | the counts are the numbers of open dispatches per worker |
| `DispatchLedger.OpenCountIs` | src/server/dispatch-ledger-store.ts:533-541 | the number that is counted is that of the worker's open dispatches |
| `DispatchLedger.Ledger.CreateDispatchMessage` | src/server/dispatch-message-store.ts:64-137 | the checks in their order, then message and delivery |
| `DispatchLedger.Ledger.MarkReportedByWorker` | src/server/dispatch-ledger-store.ts:457-487 | `NoOpenDispatch` if and only if the worker has no open dispatch, or none with the id given; else the one with that id, or the first open one, is reported if and only if the number is accepted, with all its pending deliveries resolved, and no other row changes |
| `DispatchLedger.ReportedIsTheOneAsked` | src/server/dispatch-ledger-store.ts:437-487 | which dispatch a report closes, and exactly what changes about it |
| `DispatchLedger.Ledger.MarkCancelled` | src/server/dispatch-ledger-store.ts:489-505 | only open dispatches are cancelled |
| `DispatchLedger.Ledger.ReopenReportedDispatch` | src/server/dispatch-ledger-store.ts:406-424 | only reported dispatches are reopened, without outcome and acceptance |
| `OperationQueue.FirstComeFirstServed` | src/server/git-workspace-service.ts:63-76 | while an operation runs every earlier one has settled and every later one waits |
| `OperationQueue.FailureNeverBlocks` | src/server/git-workspace-service.ts:66-68 | a waiting operation may start if and only if all earlier ones have settled, in success or failure |
| `OperationQueue.EntryMeansUnswept` | src/server/git-workspace-service.ts:69-75 | the map holds an entry if and only if the tail is not swept; when the tail has settled, everything has |
| `OperationQueue.AfterKeeps` | src/server/git-workspace-service.ts:63-76 | every step keeps the invariant of the chain |
| `OperationQueue.WorkspaceOperationQueue.Enqueue` | src/server/git-workspace-service.ts:66-70 | chaining to the tail of one workspace |
| `OperationQueue.WorkspaceOperationQueue.Finally` | src/server/git-workspace-service.ts:71-74 | the entry is removed only by its own operation |
| `Clarification.OneMemberOneDispatch` | src/server/clarification-runtime.ts:75-168 | over all interleaved handoffs and retries a request id takes at most one member and makes at most one dispatch, those its record names |
| `Clarification.PendingOwnersDiffer` | src/server/clarification-request-store.ts:33-42 | two requests waiting for their dispatch never own the same member |
| `Clarification.OwnershipIsFinal` | src/server/clarification-request-store.ts:43-53 | owner and dispatch of a request never change once set |
| `Clarification.RetriesAreIdempotent` | src/server/clarification-runtime.ts:81-93 | a retry with other content is refused, one after a dispatch changes nothing |
| `Clarification.AdmittedIff` | src/server/clarification-runtime.ts:75-152 | when a handoff gets past its admission, and with which record |
| `Clarification.SentIs` | src/server/clarification-runtime.ts:152-168 | what becomes of an admitted request, and when it is marked as failed |
| `Clarification.RetryCompletes` | src/server/clarification-runtime.ts:75-168 | a request without its dispatch is completed by a retry once its dependencies work, as long as its member is there |
| `Clarification.SuitableIff` | src/server/clarification-runtime.ts:101-129 | which members may be selected |
| `Clarification.AfterKeeps` | src/server/clarification-runtime.ts:75-168 | every step keeps the invariant |
| `Clarification.Requests.Handoff` | src/server/clarification-runtime.ts:75-168 | one handoff computes both halves of the specification |
| `Clarification.Requests.SelectMember` | src/server/clarification-runtime.ts:101-129 | the loop selects the first suitable member |
| `Clarification.Requests.IsReserved` | src/server/clarification-request-store.ts:22-29 | a member is reserved while it owns a request without a dispatch |
| `Clarification.Requests.CreateRecord` | src/server/clarification-request-store.ts:33-42 | primary key and reservation check |
| `Clarification.Requests.CreateDispatch` | src/server/clarification-request-store.ts:43-50 | a dispatch is attached once, or rolled back |
| `CursorPaging.ListIsSlice` | src/server/dispatch-message-store.ts:138-173 | a page of a numbered log is a slice of it, and the next cursor is its end |
| `CursorPaging.WalkVisitsPrefix` | src/server/dispatch-message-store.ts:155-173 | following cursors over a growing log visits each message once and in order; a finished walk has visited a whole log |
| `CursorPaging.WalkEnds` | src/server/dispatch-message-store.ts:155-173 | over a log that no longer grows a walk ends |
| `CursorPaging.AppendKeeps` | src/server/external-goal-store.ts:182-210 | an inserted event gets the next number |
| `CursorPaging.NoLostWakeUp` | src/server/external-goal-bridge.ts:218-237 | in every reachable state a waiter beyond whose cursor there is an event has been called |
| `CursorPaging.RepliesContinue` | src/server/external-goal-bridge.ts:365-388 | a reply holds exactly the events after the cursor and returns the end of the log; a cursor ahead of the log stays |
| `CursorPaging.ToldIff` | src/server/external-goal-bridge.ts:365-388 | a call is answered at once if and only if there is an event behind its cursor, and whenever it resumes |
| `CursorPaging.FollowSeesEverything` | src/server/external-goal-bridge.ts:365-388 | following returned cursors sees every event once and in order |
| `CursorPaging.HeardEverything` | src/server/external-goal-bridge.ts:218-388 | over all runs a caller that passes its cursors on is told every event once and in order, through any calls, waits and wake-ups |
| `AttentionPaging.WalkVisitsWhatPersists` | src/server/activity-attention-query.ts:90-155 | over facts that come and go, what a walk visits is strictly ordered, and a fact that persists is visited if and only if the walk has passed its place |
| `AttentionPaging.FinishedWalkIsComplete` | src/server/activity-attention-query.ts:116-155 | a finished walk has visited every persisting fact within bound and filter exactly once |
| `AttentionPaging.WalkEnds` | src/server/activity-attention-query.ts:116-155 | over facts that no longer change a walk ends |
| `AttentionPaging.PageSplits` | src/server/activity-attention-query.ts:116-152 | one page holds exactly the admitted facts between two cursors |
| `AttentionPaging.Totals` | src/server/activity-attention-query.ts:102-115 | the counting loop: per kind, in total and for the filter, equal to what a walk visits |

## Left out

- Terminal emulation, PTY spawning, HTTP, timers and the clock: screens, events and times are parameters.
- SQL, schemas and migrations: tables are maps and sequences, transactions are single steps.
- Git, file system and hash internals: trees are maps, digests and object ids are functions of their content, and
  symlink, inode and permission checks are one observation ("not an ordinary file").
- Lone UTF-16 surrogates and the difference between UTF-16 units and characters in the paste matcher.
- `isUserReceipt` and JSON parsing: a line is blank, another record, a matching receipt or malformed.
- The texts of the dialogs that stop a delivery: whether one is on screen is an observation. A window read of the journal
  delivers all it asks for when the starting offset is taken.
- `submitCodexPrompt`, which keeps no durable state.
- A restored backup that is older than the record it replaces: `Restore` is the update that a restore makes, on the
  current record.
- The reader that a recheck keeps is a value in `MessageDelivery`; as an object it is `ReportJournalReader`.
- The message schedule (`next_attempt_at`) and the deletion of deliveries with their dispatch. `MessageDelivery` is about
  one message, whose neighbours appear as keystrokes and as a refused claim; `DeliveryQueue` is about all of them.
- Foreign changes of the target between the single checks of `finishCandidateCheckout`, Git filters and line endings, and
  file changes too quick for the time stamps of the index.
- `abandon` while an integration operation is in progress: it does not take the lock of the operations.
- The resource queue around candidate preparation: only its effects on the candidate are modelled.
- Case folding of Windows paths in the denied roots of a controlled commit, and its Git identity and isolation settings.
- A directory that takes the place of a file in `git update-index`: it counts as the failure of that command.
- The launch branch with a native session in the run starter, session capture during a run and post-start messages.
- The live-run registry is not three maps over all runs: the slots of one run are the fields of one object, since
  every access goes by the run's own id.
- The join with launch configurations and retired workers in the interrupted list: it removes whole agents.
- Message bodies, kinds of report payloads, artifacts, parent dispatches and archives in the ledger.
- Filters of session waiters that reorder ids: both callers keep the ids that pass a test.
- The order of the clarification queue inside `Handoff`: the two halves interleave freely in `Clarification`, and the
  queue itself is `OperationQueue`.
- The text of attention items; ids are compared as numbers.
- The directory walk and the sorting of the Codex session index, and the command-line parsers of `team`.
