# Verified model of the Cedar study platform

Cedar is a study and check-in platform: a Go server on MySQL, a Vue front end and a Python synchroniser. This project
models the parts of it whose correctness does not show in any single function, and proves what they promise.

`dafny verify dfyconfig.toml` checks everything (Dafny 4.11).

## How the model is built

- **Protocols are step systems.** The notification queue, the binding leases, the robot fleet, the study memory and the
  ministry transactions are states with a `Do` function. A step is one critical section, one transaction, one piece of
  code between two awaits, or the start or end of an external call. A run is any sequence of steps, so a statement about
  `Run` is one about every interleaving. External calls and writes take their outcome as a parameter of the step.
- **Imperative code stays imperative.** Objects with fields that change are classes, loops are loops, and each such
  method is proved equal to a specification function, or to satisfy a specification that does not mention its body. What
  the code promises is then proved about these functions.
- **History is kept beside the program's state** where a statement needs it (what was delivered and from which text, how
  often a target was rebound, which edits were made), and is marked as such.
- **A specification function is never the last word.** For each operation the fields, texts, records or sets before and
  after it are told once more without the function that specifies it, in the method's `ensures` or as a lemma.

| file | part of the platform |
|---|---|
| `Bindings.dfy`, `LeaseProtocol.dfy` | chat bindings, the queue's table of targets, versions and leases |
| `Jobs.dfy`, `Delivery.dfy`, `DeliveryFiles.dfy`, `DeliveryLogs.dfy`, `DeliverySends.dfy`, `DeliveryTexts.dfy`, `DeliveryClosings.dfy`, `DeliveryRuns.dfy` | the durable job queue, its worker, and what every step of it keeps |
| `DeliverySteps.dfy`, `DeliveryOutcomes.dfy`, `LeftJobs.dfy` | what becomes of a job, which summaries are delivered and which are not |
| `QueueOrder.dfy`, `FileNames.dfy` | the names of job files and the order of jobs |
| `SentState.dfy`, `CanonicalText.dfy`, `SameContent.dfy` | the last-sent store and the canonical text of summaries |
| `Checkins.dfy`, `CheckinShares.dfy`, `Summaries.dfy` | the summary of a period's check-ins |
| `MessageSplit.dfy` | splitting a message for the chat service |
| `Fleet.dfy`, `FleetRuns.dfy` | registering, removing and running robots |
| `ZkSync.dfy`, `ZkSyncOrigins.dfy`, `ZkSyncRepeated.dfy`, `ZkSyncKeys.dfy`, `ZkSyncAsking.dfy`, `ZkSyncTwins.dfy`, `ZkSyncHistory.dfy`, `ZkSyncProgram.dfy` | the one-way check-in synchronisation |
| `StudyMemory.dfy`, `StudyPage.dfy`, `StudyHistory.dfy`, `StudyReads.dfy`, `StudySteps.dfy`, `StudyBinding.dfy` | the offline-first study memory of the front end |
| `ScheduleHistory.dfy`, `VerseProgression.dfy`, `VerseMarks.dfy`, `CalendarProgress.dfy`, `CalendarTasks.dfy` | the learning schedule |
| `AuditChanges.dfy`, `Ministry.dfy`, `MinistryMembers.dfy`, `Pbkdf2.dfy` | audit differences, join requests, password keys |
| `Percents.dfy`, `DoublePercents.dfy`, `Halves.dfy` | the percentage of completed tasks, with integers and with doubles |
| `Wrappers.dfy`, `Dates.dfy`, `SeqFacts.dfy`, `Ratios.dfy`, `Doubles.dfy` | shared notions and facts |

## What the code does not promise

Some properties one would expect hold only under a condition; the model states the condition exactly.

- A send after its target was rebound is stopped only while the version counter has not come round: the check passes
  exactly when the target was rebound a multiple of 2^64-1 times (`LeaseProtocol.SendStartsIff`).
- Removing the marker of new entries from a text is undone by the canonical form only if the surrounding text does not
  itself form a marker across the cut (`CanonicalText.MarkerInvisibleIff`).
- A changed schedule keeps the *version* of every past day, but fields that only the new configuration has show through
  to past days. A devotion that is given a numbered start for the first time is off on all days before it
  (`ScheduleHistory.PastUnchangedIff`, `ScheduleHistory.NumberedStartLeaksIntoThePast`).
- The audit difference can be read back exactly when no later field is the mark of a missing field, or adds just that
  mark to the object before it (`AuditChanges.RedoIff`, `AuditChanges.MarkIsLost`).
- The calendar and the list of a day show different percentages exactly when completed / total is 29/200, 57/200, 113/200
  or 115/200: there the list's doubles fall below a half, and it shows one percent less
  (`Percents.PercentsAgreeIff`; 57 instead of 58 at 23 of 40, `Percents.TwentyThreeOfForty`).
- The check-in synchronisation knows nothing of the extra column in the table's unique key, by which several weekly
  readings of one day are told apart. Some snapshot makes the table refuse its insert exactly when its index leads, from a
  target key that another record with extra key zero shares, to a record that it may remove (`ZkSyncTwins.CanMeetKeyIff`;
  an input, `ZkSyncTwins.ChangedReadingMeetsKey`). While no migrated weekly reading with a task is active this never happens
  (`ZkSyncHistory.HistoryKeepsUniqueKey`).
- The deliveries of a topic are recorded in order unless the worker stops between saving a job as sent and archiving it:
  then it records the job when it comes back to it, without comparing it with what was sent meanwhile
  (`DeliveryRuns.DeliveriesFollowEachOther`, `LeftJobs.LeftJobIsRecorded`, `LeftJobs.DateMovesBack`).
- A single client always shows its latest edit after an account is bound exactly when no upload of an earlier binding of
  that account is left that may still arrive, be it on its way or reported as failed (`StudyBinding.LatestIsShownIff`): the
  check of the code, account and sender, does not tell two bindings of the same account apart. An upload of the binding
  itself that is reported as failed and arrives late can hide an edit after every binding
  (`StudyBinding.OwnLateUploadHides`).

## Model

| member | source | states |
|---|---|---|
| Bindings.BindingStore.Assign | backend/internal/notification/bindings.go:83-116 | exactly when an assignment is refused as invalid or changed; after an accepted one the target has the group, no other target of its chat has one, and all other chats keep theirs; any other outcome, a failed write included, leaves the book as it was |
| Bindings.BindingStore.Targets | backend/internal/notification/bindings.go:118-131 | the table lists exactly the bound targets under their groups, in ascending order of their chats |
| Bindings.TargetQueue.constructor | backend/internal/notification/queue.go:76-95 | every listed target starts with version 1, every other with 0 |
| Bindings.TargetQueue.TargetVersion | backend/internal/notification/queue.go:540-549 | a target is enabled exactly when its group lists it, and then its version is returned |
| Bindings.TargetQueue.PlanTargets | backend/internal/notification/queue.go:140-153 | for the tables of two books the plan lists exactly the targets whose group differs, each once |
| Bindings.TargetQueue.PublishTargets | backend/internal/notification/queue.go:164-173 | exactly the planned targets get the next version, zero being skipped, and the table is replaced |
| Bindings.GroupsByTarget | backend/internal/notification/queue.go:574-582 | the map has exactly the listed targets, each with a group that lists it |
| Bindings.ChangedTargets | backend/internal/notification/queue.go:584-597 | exactly the targets whose group differs are listed; no target is listed twice if and only if no new one has group zero |
| Bindings.GroupsMatchBook | backend/internal/notification/queue.go:574-582 | the groups of a book's table are those of the book |
| LeaseProtocol.VersionClosedForm | backend/internal/notification/queue.go:165-170 | the version after n changes in closed form, with the wrap-around that skips zero |
| LeaseProtocol.SameVersionIff | backend/internal/notification/queue.go:165-170 | two numbers of changes give the same version exactly when they differ by whole cycles of 2^64-1 |
| LeaseProtocol.PublishEffect | backend/internal/notification/queue.go:140-173 | publication changes the version of the changed targets and of no other |
| LeaseProtocol.RunKeepsInv | backend/internal/notification/queue.go:140-173 | every step of deliveries, updates and store operations keeps the consistency of leases, versions and remembered versions |
| LeaseProtocol.InFlightIsCurrent | backend/internal/notification/queue.go:473-482 | in every reachable state a message in flight goes to a target whose published group and version are those it was sent under, and no publication that changes its target can happen meanwhile |
| LeaseProtocol.SendStartsIff | backend/internal/notification/queue.go:551-563 | a send starts exactly when the group still has the target and it was rebound a whole number of cycles since; rebinding there and back stops it |
| LeaseProtocol.MutedReplyUnbindsIff | backend/internal/notification/manager.go:152-167 | a muted reply removes its binding exactly when the target was not rebound since the version was read, and never removes another |
| LeaseProtocol.UnmutedReplyOnlyEnds | backend/internal/notification/queue.go:489-508 | any other reply ends its delivery and changes nothing else |
| LeaseProtocol.AssignTakesIff | backend/internal/notification/bindings.go:83-116 | an assignment takes exactly if no update is in progress, it can be written, the binding is valid and the expected group is that of the chat; it gives the target the group and begins an update, and otherwise nothing changes |
| LeaseProtocol.SettledIsPublished | backend/internal/notification/manager.go:107-150 | between updates the queue works from what is stored |
| LeaseProtocol.DeliveryNeverStuck | backend/internal/notification/queue.go:551-563 | a delivery can go on by itself exactly unless an update holds its lease, or is in progress while its muted reply waits; a lease is got exactly if no update holds it |
| LeaseProtocol.UpdateNeverStuck | backend/internal/notification/queue.go:155-162 | an update can always go on, or waits for a delivery that can |
| LeaseProtocol.PlanExists | backend/internal/notification/queue.go:584-597 | every two books have a plan |
| Dates.TextOrderIsDateOrder | backend/internal/notification/sent_state.go:246-255 | for well-formed dates the order of the texts is that of the dates |
| Dates.SameOrdinalSameText | backend/internal/notification/sent_state.go:246-255 | a date has one text |
| CanonicalText.ConcatWithoutMarkers | backend/internal/notification/sent_state.go:214-221 | when removing the markers of two texts is removing those of the joined text |
| CanonicalText.MarkerInvisibleIff | backend/internal/notification/sent_state.go:214-221 | inserting a marker leaves the text without markers unchanged if and only if no marker straddles the cut |
| CanonicalText.MarkedLabelIsInvisible | backend/internal/notification/checkins.go:45-158 | marking an entry of a summary as new does not change its canonical text |
| SameContent.SameCanonicalIff | backend/internal/notification/sent_state.go:214-221 | two texts have the same canonical text exactly when they have the same words on the same lines, marks and the empty lines around them aside |
| SameContent.EmptyIff | backend/internal/notification/sent_state.go:214-221 | the canonical text is empty exactly for the texts without a word |
| Checkins.FormatCheckins | backend/internal/notification/checkins.go:45-158 | the loops group the check-ins and return the specified summary |
| Checkins.SummaryIs | backend/internal/notification/checkins.go:126-142 | there is no summary exactly if it is for a record that is none of its check-ins; and under which of the three titles it stands |
| Checkins.GroupedMeaning | backend/internal/notification/checkins.go:60-125 | one line for each user with a check-in in the summary, on it one label for each key of theirs, marked as new exactly if the record is one of the check-ins of that key |
| Checkins.GroupsInOrder | backend/internal/notification/checkins.go:104-109 | the lines stand in the order of their users' first check-ins, under the names given there |
| Checkins.LabelsInOrder | backend/internal/notification/checkins.go:114-124 | the labels of a line stand in the order of the first check-ins of their keys, and are theirs |
| Checkins.RecordDoesNotCount | backend/internal/notification/checkins.go:45-158 | the summaries of the same check-ins for different records have the same canonical text |
| CheckinShares.CountsIff | backend/internal/notification/checkins.go:61-100 | which check-ins are part of the daily and of the weekly summary |
| CheckinShares.SameKeyIff | backend/internal/notification/checkins.go:64-100 | two check-ins share a label exactly if they are of the same kind, and of the same book or medium |
| CheckinShares.CleanedIs | backend/internal/notification/checkins.go:160-168 | a cleaned name has the words of the name, with single spaces on one line |
| CheckinShares.BookLabelIs | backend/internal/notification/checkins.go:83-87 | the label of a reading is the first two characters of its title within the quotes |
| Summaries.MemberLine | backend/internal/notification/checkins.go:146-156 | the loop over a member's labels gives its line |
| Summaries.Assemble | backend/internal/notification/checkins.go:142-157 | the loops over members and labels give the title and the numbered lines |
| Summaries.SummaryLines | backend/internal/notification/checkins.go:142-157 | split at its line ends, a summary is the title and one line for each member, numbered from one, with the name and the labels after single spaces, the new ones marked; or a note that there is nobody |
| Summaries.MarksDoNotCount | backend/internal/notification/checkins.go:142-157 | summaries of the same members and labels have the same canonical text, whatever is marked as new |
| SentState.SentStore.Read | backend/internal/notification/sent_state.go:133-146 | a state is returned only if it is complete and stored under its own key |
| SentState.SentStore.NeedsSend | backend/internal/notification/sent_state.go:44-77 | a candidate calls for a delivery exactly if it is complete and nothing is known of its key, or what is known is readable and, in the same period, has another content and does not cover the record, or is of no later day; otherwise only the covered record of that key can change, and only upwards |
| SentState.SentStore.Record | backend/internal/notification/sent_state.go:79-90 | which state is recorded, field by field: it replaces the state of its key alone, keeping the larger covered record within a period |
| SentState.SentStore.Bootstrap | backend/internal/notification/sent_state.go:92-131 | archived jobs fill only keys that have no state |
| SentState.LatestStatesMeaning | backend/internal/notification/sent_state.go:92-131 | the state taken for a key is that of its latest usable archived delivery, the first one of several equally new |
| SentState.SentFollowsLast | backend/internal/notification/sent_state.go:44-77 | what is sent after a delivery follows it: later record, other content within the period |
| SentState.SentIffFollowsLast | backend/internal/notification/sent_state.go:44-77 | a complete candidate is sent exactly if what would be recorded follows the last delivery and its record is not covered in the same period |
| SentState.LaterDayIsSent | backend/internal/notification/sent_state.go:44-77 | in particular the summary of a later day is sent |
| SentState.DailyNeverMovesBack | backend/internal/notification/sent_state.go:197-199 | in a chain of dated deliveries the date never moves back and the covered record never decreases on a date |
| SentState.SameDaySameVersion | backend/internal/notification/sent_state.go:246-255 | daily versions of one day are equal |
| SentState.PlainDate | backend/internal/notification/sent_state.go:246-255 | the date of a version is the text after the topic and a colon |
| SentState.MarkedDate | backend/internal/notification/sent_state.go:246-255 | or after the mark of a missing plan |
| SentState.DatedVersionIs | backend/internal/notification/sent_state.go:246-255 | and no other version has a date |
| Jobs.RetryTimeBounds | backend/internal/notification/queue.go:510-526 | a retry has at most four attempts behind it and is due within five minutes and before expiry, at the delay of its attempt unless the service asks for more |
| Jobs.GetPut | backend/internal/notification/queue.go:682-705 | writing the files of one name leaves those of all others |
| Jobs.JobStore.Enqueue | backend/internal/notification/queue.go:287-305 | a job is added only under a name that stands in no directory (what it is: DeliverySteps.EnqueuedIsFresh) |
| Jobs.JobStore.RearmInitial | backend/internal/notification/queue.go:233-285 | a wake-up is noted on a pending job, or an archived one is reset into pending (DeliverySteps.RearmedIsFresh) |
| Jobs.JobStore.MergeInitialRefresh | backend/internal/notification/queue.go:707-726 | the job in memory takes over a later wake-up of its file |
| Jobs.JobStore.PrepareInitialRefresh | backend/internal/notification/queue.go:657-671 | a job that was woken and has sent nothing is reset before its body is frozen (DeliverySteps.PreparedIs) |
| Jobs.JobStore.SaveJob | backend/internal/notification/queue.go:673-680 | saving keeps a wake-up that came in between (DeliverySteps.SavedIs) |
| Jobs.JobStore.Finalize | backend/internal/notification/queue.go:682-705 | a finished job is archived by its status, or reset if it was woken (DeliverySteps.ArchivedIs) |
| Jobs.JobStore.ClearFailed | backend/internal/notification/queue.go:195-215 | exactly the failed directory is emptied |
| DeliveryRuns.RunKeepsInv | backend/internal/notification/queue.go:371-526 | every interleaving of the worker with wake-ups, enqueues, clearing, failing writes and crashes keeps the invariants of files, logs and sent states |
| DeliveryRuns.NoWakeUpIsLost | backend/internal/notification/queue.go:657-746 | a wake-up that came after the last reset is noted on the pending file and leads to a reset; no archived job was frozen before the last wake-up of its name |
| DeliveryRuns.WokenNameIsPending | backend/internal/notification/queue.go:217-285 | waking and then enqueueing a name, as the program does, leaves it pending wherever it stood, with the wake-up noted or not yet frozen |
| DeliveryRuns.OneDirectoryPerName | backend/internal/notification/queue.go:233-305 | a name stands in one directory at most unless a deletion failed, and pending jobs are well formed |
| DeliveryRuns.SendsAreBounded | backend/internal/notification/queue.go:402-526 | acknowledged parts are a prefix of one body and each part is tried five times at most, unless the worker stopped between starting a send and saving its outcome; a pending file always has four attempts at most |
| DeliveryRuns.SendsCountDown | backend/internal/notification/queue.go:402-526 | the measure behind it: five sends for each part that is not acknowledged, less the tries of the next one, is never negative, goes down by one with every send of the same body and never up |
| DeliveryRuns.NothingKnownIsSent | backend/internal/notification/queue.go:434-482 | no message in flight carries an event its period covers or a content its period already got |
| DeliveryRuns.DeliveriesFollowEachOther | backend/internal/notification/sent_state.go:44-90 | unless the worker stopped between saving a job as sent and archiving it, the deliveries of a group, chat and topic form a chain: within a period records never decrease and contents change |
| DeliveryRuns.DailyDeliveriesInDateOrder | backend/internal/notification/sent_state.go:197-255 | under the same condition daily summaries are delivered in date order |
| DeliveryOutcomes.TextInFlightIsNews | backend/internal/notification/queue.go:402-482 | over every run, the text of a message in flight has another canonical text than the last delivery of its period |
| DeliveryOutcomes.ConsecutiveTextsDiffer | backend/internal/notification/sent_state.go:44-90 | so have the texts of two consecutive deliveries of one period, unless the worker stopped between saving a job as sent and archiving it |
| DeliveryOutcomes.RemarkedSummaryIsSkipped | backend/internal/notification/queue.go:427-453 | over every run, a summary that differs from the last delivery of its period at most in what is marked as new ends as skipped |
| DeliveryOutcomes.SameCheckinsAreSkipped | backend/internal/notification/queue.go:427-453 | so does the summary of the very check-ins that were last delivered in its period, whichever of them it is about |
| DeliveryOutcomes.GoesOnIffNews | backend/internal/notification/queue.go:434-454 | over every run, a usable summary goes on to be sent exactly if nothing was delivered before, or it follows the last delivery and its record is not covered; otherwise it ends as skipped |
| DeliveryOutcomes.LaterDayGoesOn | backend/internal/notification/queue.go:434-454 | over every run, the summary of a later day than the last delivery goes on to be sent |
| DeliveryOutcomes.NothingExpiredIsSent | backend/internal/notification/queue.go:462-482 | over every run, no message is in flight that had expired when its job was taken up |
| DeliveryOutcomes.FailureIsFinalIff | backend/internal/notification/queue.go:496-524 | a failed send is tried again exactly if the service says that it can be and fewer than five attempts were made |
| DeliveryOutcomes.ClosedIsNeverSent | backend/internal/notification/queue.go:371-381 | over every run, a job that was saved as failed, skipped or sent is never sent again until it is archived or reset for a new body |
| DeliverySteps.EnqueuedIsFresh | backend/internal/notification/queue.go:287-305 | enqueueing gives a name that stands nowhere a job of its own group, chat, topic or record, with nothing done and due at once, and changes nothing else |
| DeliverySteps.RearmedIsFresh | backend/internal/notification/queue.go:233-285 | over every run, waking makes an archived job such a fresh one, and a pending one due at once with the time noted |
| DeliverySteps.TakenUpIff | backend/internal/notification/queue.go:321-369 | when a pending file is set aside, closed as expired, left waiting or taken up |
| DeliverySteps.WokenIsTakenUp | backend/internal/notification/queue.go:233-285 | over every run, a pending job that is woken is taken up at once, whatever it was waiting for |
| DeliverySteps.CheckAnswers | backend/internal/notification/queue.go:387-402 | a rebound target and a disabled notification end the job; unreadable settings make it wait; a job without a body is summarised, one with a body compared |
| DeliverySteps.SummaryAnswers | backend/internal/notification/queue.go:402-433 | a summary is frozen as it was read, hash and content being its canonical text; an empty one ends the job |
| DeliverySteps.UnreadableAnswer | backend/internal/notification/queue.go:437-448 | without a readable sent state the job waits, and forgets a body that was not saved |
| DeliverySteps.LeaseAnswers | backend/internal/notification/queue.go:473-480 | with the lease the message is sent as one more attempt, without it the job ends |
| DeliverySteps.AcknowledgementEnds | backend/internal/notification/queue.go:489-495 | an acknowledged part is done, and with the last one the job is sent |
| DeliverySteps.FailedWriteChangesNothing | backend/internal/notification/queue.go:657-705 | a write that fails leaves files and records, whatever the step |
| DeliverySteps.PreparedIs | backend/internal/notification/queue.go:375-386 | over every run, where a job goes that was taken up: one that is over is recorded or archived, one that was woken and has sent nothing starts over |
| DeliverySteps.FrozenIs | backend/internal/notification/queue.go:455-471 | over every run, a body just read is saved before its first message can be sent; then expired and finished jobs are closed |
| DeliverySteps.SavedIs | backend/internal/notification/queue.go:607-645 | over every run, what is saved of an outcome, field by field, and where the worker goes on |
| DeliverySteps.ArchivedIs | backend/internal/notification/queue.go:682-705 | over every run, a job that is over moves to the directory of its status, or becomes a fresh one if it was woken |
| DeliverySteps.RecordedIs | backend/internal/notification/sent_state.go:163-195 | over every run, what is recorded of a delivery: the job's group and chat, its summary's topic, period and canonical text, the time it was sent, and the largest record its period has covered |
| LeftJobs.LeftJobIsRecorded | backend/internal/notification/queue.go:371-526 | a job left saved as sent is recorded after whatever was delivered meanwhile, and replaces it |
| LeftJobs.DateMovesBack | backend/internal/notification/queue.go:371-526 | for any two daily summaries there is a run, stopped between saving and recording, that records the earlier one last, and whose deliveries are no chain if it is of an earlier day |
| QueueOrder.PaddedOrder | backend/internal/notification/queue.go:107-108 | padding with zeros to equal length makes the order of texts that of numbers |
| QueueOrder.FileNameOrder | backend/internal/notification/queue.go:107-131 | in file-name order initial jobs come first, then record IDs ascend |
| FileNames.FileNamesDiffer | backend/internal/notification/queue.go:107-131 | different jobs have different file names: the file names a group, chat, and topic or check-in |
| QueueOrder.ProcessNext | backend/internal/notification/queue.go:321-369 | a tick processes at most one job, a due head of its chat, the first such one; outdated jobs before it are closed, and nothing is processed only if no head is due |
| QueueOrder.HeadIsFirstByName | backend/internal/notification/queue.go:321-369 | the head of a chat is the first of its live jobs by file name |
| MessageSplit.FindCut | backend/internal/notification/checkins.go:182-202 | the cut before the limit: the last newline, else the last space, else the last character boundary |
| MessageSplit.SplitMessage | backend/internal/notification/checkins.go:182-202 | for every valid UTF-8 text the loop returns the parts of the specification, byte by byte |
| MessageSplit.PartsCarryText | backend/internal/notification/checkins.go:182-202 | the parts are non-empty, made of whole characters, at most 3500 bytes long, and together equal the text once white space is dropped |
| MessageSplit.CutsAtLines | backend/internal/notification/checkins.go:182-202 | each cut is after a whole line if there is one, else at a space, else at a character boundary within four bytes of the limit |
| Fleet.StartHasInv | backend/internal/notification/fleet.go:286-349 | the fleet built from two lists that merge starts consistent: names, tokens and registrations match |
| Fleet.ExecKeepsInv | backend/internal/notification/fleet.go:367-394 | every interleaving keeps workers, robots, registrations, tokens and order consistent |
| Fleet.OneWorkerPerDirectory | backend/internal/notification/fleet.go:576-683 | no two live workers ever own the same directory; the ID of a removed robot stays reserved until its worker has ended |
| Fleet.SavedAfterSuccess | backend/internal/notification/fleet.go:576-683 | after each successful registration or removal the file holds exactly the registered robots |
| Fleet.FileStaysTrue | backend/internal/notification/fleet.go:576-683 | from a start with any file that merges, and as long as no save fails after replacing it, the file without the entries that the deployment shadows holds exactly the registered robots in every state, and from the first success on the whole file does |
| Fleet.RestartAtAnyTime | backend/internal/notification/fleet.go:286-349 | in each of these states merging the file with the same deployment brings back exactly the registered robots |
| Fleet.RestartRestoresRegistered | backend/internal/notification/fleet.go:286-349 | after a success merging the file with the same deployment brings them back too, whatever failed before |
| Fleet.MergeConfigs | backend/internal/notification/fleet.go:319-349 | the loops over both lists compute the merge, and fail exactly on a conflict |
| Fleet.RobotFleet.RunAll | backend/internal/notification/fleet.go:367-394 | all robots that may start are started, in order (which ones: FleetRuns.RunsAfterIff) |
| Fleet.RobotFleet.StartRobot | backend/internal/notification/fleet.go:381-394 | a robot starts exactly during a run, if it is not running and not being removed; its worker is then live |
| Fleet.RobotFleet.FindToken | backend/internal/notification/fleet.go:602-607 | found exactly if a known robot has the token |
| Fleet.RobotFleet.RegisterRobot | backend/internal/notification/fleet.go:593-633 | which outcome is returned when, and what each leaves of robots, order, registrations, file and workers |
| Fleet.RobotFleet.BeginRemoval | backend/internal/notification/fleet.go:636-667 | which outcome is returned when, and what each leaves of robots, registrations and file |
| Fleet.RobotFleet.FinishRemoval | backend/internal/notification/fleet.go:669-683 | the robot and its place in the order go, and nothing else |
| FleetRuns.RunsAfterIff | backend/internal/notification/fleet.go:367-394 | a step starts exactly the robots that are known when a run begins and are not being removed, and the one that is registered during a run |
| FleetRuns.KnownAfterIff | backend/internal/notification/fleet.go:593-683 | a robot is known from its registration to the end of its removal, which waits for its worker |
| FleetRuns.LiveAfterIff | backend/internal/notification/fleet.go:381-394 | a step makes live exactly the workers of the robots it starts, and ends only the one that has ended |
| FleetRuns.AllStarted | backend/internal/notification/fleet.go:367-394 | at every moment of a run of the fleet, every robot that is not being removed has been started |
| FleetRuns.NothingRunsBefore | backend/internal/notification/fleet.go:381-394 | before the first run nothing runs, whatever is registered and removed |
| FleetRuns.RemovedStaysEnded | backend/internal/notification/fleet.go:661-683 | once a robot is being removed and its worker has ended, that worker is never started again |
| ZkSync.DeactivatedKeeps | scripts/zk_sync.py:181-191 | deactivating an owned record keeps indexes, mappings and ownership consistent |
| ZkSync.UnmappedKeeps | scripts/zk_sync.py:225-232 | giving up a changed mapping leaves every record of the synchronisation mapped, and no key of the snapshot on a deactivated record |
| ZkSync.BookedKeeps | scripts/zk_sync.py:233-269 | adopting or inserting a record keeps the same |
| ZkSync.ItemStepsKeep | scripts/zk_sync.py:193-269 | so do all slots of all records |
| ZkSync.FinishedKeeps | scripts/zk_sync.py:271-284 | so does the removal of absent keys |
| ZkSync.SyncKeepsMappings | scripts/zk_sync.py:159-289 | after a run every active record of the synchronisation is the target of a mapping, no record a key of the snapshot is mapped to was deactivated, and records of other sources are untouched |
| ZkSyncHistory.HistoryKeepsSound | scripts/zk_sync.py:159-289 | the first of these over every history of runs and of edits by others |
| ZkSync.StartsSound | scripts/zk_sync.py:117-132 | a database without mappings and records of the synchronisation is a proper start |
| ZkSyncRepeated.SyncIsIdempotent | scripts/zk_sync.py:201-284 | a second run on the same snapshot writes nothing, whichever of several records its indexes hold |
| ZkSyncRepeated.AbsenceRemovesOnlyUnlessHeld | scripts/zk_sync.py:271-284 | with an empty snapshot, or more than fifty and more than a tenth of the mapped keys absent, absent keys keep their mappings and only records whose own key changed go; otherwise exactly the absent keys lose their mappings, and the records only they kept are deactivated |
| ZkSyncRepeated.EmptySnapshotChangesNothing | scripts/zk_sync.py:271-273 | an empty snapshot changes nothing |
| ZkSyncRepeated.StepReplacesIff | scripts/zk_sync.py:201-269 | a slot replaces what its key is mapped to exactly if its content changed and it passes the checks |
| ZkSyncOrigins.NewRowsComeFromRecords | scripts/zk_sync.py:193-269 | after a run, each new row comes from a record of the snapshot: it names a member whose only ID is the row's user, has the row's date, a slot of the row's type or a book slot for the weekly check-in, the task of that week, and the row's part up to 64 characters |
| ZkSyncOrigins.UsableSlotsAreBooked | scripts/zk_sync.py:193-269 | after a run, each usable slot of the snapshot whose content is new is mapped to an active record of its member, type and task, or of its member, type, date and part |
| ZkSyncKeys.StepMeetsKeyIff | scripts/zk_sync.py:225-269 | an insert meets the table's unique key exactly when its target key has left the index while a record with extra key zero still has it |
| ZkSyncTwins.CanMeetKeyIff | scripts/zk_sync.py:167-269 | some snapshot, with some members, weeks, tasks and day, makes a run meet the unique key if and only if the index leads from a shared, producible target key to a record that a mapping can remove; otherwise none does with any of them |
| ZkSyncTwins.NoOwnedTwinKeepsKey | backend/migrations/002_checkin_partitions.sql:16-22 | no insert is refused when no record of the synchronisation or the migration shares its target key with one of extra key zero |
| ZkSyncHistory.HistoryKeepsUniqueKey | backend/internal/checkin/identity.go:3-11 | the same over every history of runs and of edits by others that leave no migrated weekly reading with a task |
| ZkSyncTwins.ChangedReadingMeetsKey | scripts/zk_sync.py:225-269 | an input that fails: a migrated reading with a task beside the member's own record of it, whose note changes |
| ZkSyncKeys.SyncKeepsKeysDistinct | scripts/zk_sync.py:239-269 | active records with distinct target keys keep them at every point of a run |
| ZkSyncKeys.SyncKeepsTasksDistinct | scripts/zk_sync.py:239-269 | active records with distinct tasks keep them, whatever their target keys |
| ZkSyncProgram.Synchronizer.Load | scripts/zk_sync.py:167-179 | the indexes hold active records under their own keys, and every active record's key is indexed |
| ZkSyncProgram.Synchronizer.Deactivate | scripts/zk_sync.py:181-191 | the whole new state |
| ZkSyncProgram.Synchronizer.CountOtherRefs | scripts/zk_sync.py:227-228 | positive exactly when another key of the snapshot is mapped to the record |
| ZkSyncProgram.Synchronizer.ProcessItem | scripts/zk_sync.py:201-269 | one slot as specified (what it books: ZkSyncOrigins.NewRowsComeFromRecords) |
| ZkSyncProgram.Synchronizer.ProcessRecords | scripts/zk_sync.py:193-269 | the two loops as specified |
| ZkSyncProgram.Synchronizer.Clear | scripts/zk_sync.py:276-284 | the loop over absent keys has the closed effect: all of them lose their mapping, and exactly their unshared records go |
| ZkSyncProgram.Synchronizer.Sync | scripts/zk_sync.py:159-289 | the database after the program is that of a specified run (what it books: ZkSyncOrigins.NewRowsComeFromRecords, ZkSyncOrigins.UsableSlotsAreBooked) |
| ZkSyncProgram.PresentKeys | scripts/zk_sync.py:177-178 | the keys of the snapshot |
| StudyHistory.ViewAgrees | frontend/public/study-memory.js:36-42 | in every run the local tables show every pending operation of every account |
| StudyHistory.NoEditIsLost | frontend/public/study-memory.js:49-73 | over every run, reloads and account changes included, each edit or a newer one of its key is pending, or was executed and acknowledged by the server |
| StudyHistory.DroppedOnlyWhenAcknowledged | frontend/public/study-memory.js:62-65 | a pending operation goes only by the acknowledgement of that very version, or gives way to a newer one |
| StudyReads.AppliedReadDidNotRace | frontend/public/study-memory.js:74-102 | an applied answer, however its read was started, was not overtaken by a local edit, a dropped operation, another answer, a message of the player or an account change since its request |
| StudyBinding.LatestIsShownIff | frontend/public/study-memory.js:49-120 | a single client shows the latest edit of every key in all runs after a binding, late arrivals of earlier failed uploads included, if and only if no upload of an earlier binding of the account is left |
| StudyBinding.LateUploadHides | frontend/public/study-memory.js:62-68 | whenever an upload of the account that was reported as failed is left, there is a run in which it arrives and hides an edit |
| StudyBinding.OwnLateUploadHides | frontend/public/study-memory.js:62-68 | after every binding there is a run in which an upload of that binding fails, arrives late, and hides an edit |
| StudyBinding.RunStaysPlausible | frontend/public/study-memory.js:49-120 | the consistency these statements assume holds in every state of a run |
| StudyMemory.Overlay | frontend/public/study-memory.js:87-94 | the loop shows what is pending where something is, and the remote values elsewhere |
| StudyBinding.WorkerUploadsAll | frontend/public/study-memory.js:58-66 | a worker left alone with a server that answers uploads everything pending, oldest first, and ends |
| StudyMemory.Memory.Flush | frontend/public/study-memory.js:49-73 | one worker at a time is started, and only for a ready account |
| StudyMemory.Memory.SendOldest | frontend/public/study-memory.js:58-62 | the worker uploads the oldest pending operation, and ends when there is none |
| StudyMemory.Memory.StartSync | frontend/public/study-memory.js:74-84 | when ready a worker is started and waited for, otherwise the read is sent at once |
| StudyMemory.Memory.ContinueSync | frontend/public/study-memory.js:79-84 | after the worker has ended the read is sent, unless the account was changed |
| StudyMemory.Memory.Change | frontend/public/study-memory.js:36-42 | an edit is stored with a new version, pending if there is an account |
| StudyMemory.Memory.SavePosition | frontend/public/study-memory.js:142-147 | refused exactly while not ready, for another account than the player was opened for, without a key or for a negative position; else shown from then on, all other keys staying as they are |
| StudyMemory.Memory.ToggleFavorite | frontend/public/study-memory.js:150-156 | refused exactly while not ready or without a key; else a favourite that is shown is gone afterwards and one that is not is there, all other keys staying as they are |
| StudyMemory.Memory.FrameChanged | frontend/public/study-memory.js:121-124 | a message of the player counts only for the current account |
| StudyMemory.Memory.Acknowledge | frontend/public/study-memory.js:58-66 | the worker after an answer, for its own binding or a later one |
| StudyMemory.Memory.FinishRead | frontend/public/study-memory.js:84-102 | an answer is shown only for its own account and revision: then what is pending is shown, and the answer elsewhere; the page is ready |
| StudyMemory.Memory.BindAccount | frontend/public/study-memory.js:104-120 | a new binding is ready exactly for a guest |
| StudyPage.ReadyAfterIff | frontend/public/study-memory.js:74-120 | a page stops being ready exactly when another account is bound, and becomes ready when a read for it has ended, with or without an answer |
| StudyPage.WorkerNeedsReady | frontend/public/study-memory.js:49-57 | over every run, a worker is at work only for an account whose page is ready |
| StudyPage.EditIsTakenUp | frontend/public/study-memory.js:36-73 | after an edit of a ready page, a message of the player, the timer or the end of a read there is a worker, and a new one uploads the oldest pending operation at once |
| StudyPage.EditIsSeen | frontend/public/study-memory.js:142-156 | a stored position is shown, a favourite that was shown is gone and one that was not is there, each is pending for an account, and all other keys, accounts and the server stay as they are |
| StudyPage.ShownChangesOnly | frontend/public/study-memory.js:36-102 | what is shown of an account changes only by its own edits and by an answer that is applied, which shows the server's values and what is pending on top |
| StudyPage.FirstPendingGoesFirst | frontend/public/study-memory.js:36-66 | over every run, an operation that was pending when there was none for another key stays before that key's operation, whatever is edited again |
| ScheduleHistory.NothingSelected | backend/internal/learning/config_history.go:24-48 | no version is selected exactly when none has begun |
| ScheduleHistory.SelectedIsLatest | backend/internal/learning/config_history.go:24-48 | the selected version has the latest start not after the day, the last one of several |
| ScheduleHistory.PickVersion | backend/internal/learning/config_history.go:22-51 | the loop selects the only latest version that has begun, the last one of several; else the earliest one, the first one of several; and none only if no version has a start |
| ScheduleHistory.StartMeaning | backend/internal/learning/config_history.go:164-172 | a version starts at the first of its fields that holds a date |
| ScheduleHistory.InEffectIsInForce | backend/internal/learning/config_history.go:22-51 | the version in effect told by starts alone, for every day |
| ScheduleHistory.Upsert | backend/internal/learning/config_history.go:153-162 | the first version with the same start is replaced, else the new one is appended |
| ScheduleHistory.UpsertedElements | backend/internal/learning/config_history.go:153-162 | the history then has the new version and the old ones with other starts |
| ScheduleHistory.SortedSame | backend/internal/learning/config_history.go:96-98 | sorting permutes the history |
| ScheduleHistory.Save | backend/internal/learning/config_history.go:60-106 | what is stored: the new fields, and the old versions in the order of their starts, with the old configuration among them exactly if the start moves forward; a history the client sends is ignored when the component existed before |
| ScheduleHistory.SavedDistinct | backend/internal/learning/config_history.go:60-106 | saving keeps the starts of the history distinct |
| ScheduleHistory.SavedMeaning | backend/internal/learning/config_history.go:60-106 | the stored history is sorted, and holds the old versions, with the old configuration in place of any of its start exactly if the start moves forward |
| ScheduleHistory.NewStartTakesEffect | backend/internal/learning/config_history.go:22-106 | from its start on the new version is in effect, as long as no version of the history starts later |
| ScheduleHistory.PastVersionKept | backend/internal/learning/config_history.go:60-106 | a forward save keeps the version of every day from the earliest known start up to the new start |
| ScheduleHistory.PastFieldsKept | backend/internal/learning/config_history.go:55-57 | each field of that version keeps its value |
| ScheduleHistory.PastUnchangedIff | backend/internal/learning/config_history.go:55-57 | all effective fields stay the same if and only if old and new configuration agree outside the version's fields |
| ScheduleHistory.NumberedStartLeaksIntoThePast | backend/internal/learning/completion_modes.go:52-61 | every input of a family on which the condition fails: past days of a devotion are switched off |
| ScheduleHistory.PastKeptOverRuns | backend/internal/learning/config_history.go:60-106 | over any run of forward saves each save fixes the version of the days before it for good |
| VerseProgression.MarkPadded | backend/internal/learning/verse_progression.go:12 | white space at the end of a line changes neither whether it has a verse marker nor which |
| VerseMarks.MarkIff | backend/internal/learning/verse_progression.go:12 | a line has a verse marker exactly if it is made of a bracket, a book, chapter, colon, verse and bracket with blanks between, and its reference and words are then what these say |
| VerseMarks.ClearIff | backend/internal/learning/verse_progression.go:28-34 | a verse is clear exactly if its chapter and verse are positive and its words are there and start with no digit, dash or colon |
| VerseMarks.SplitIff | backend/internal/learning/verse_progression.go:16-39 | a text is a list of verses exactly if it has marked lines, only white space before them, no reference twice and only clear verses; then there is one for each marked line, in order, under its reference |
| VerseProgression.CountMeaning | backend/internal/learning/verse_progression.go:66-72 | the number of verses a day is one from 1 to 100 without its fraction |
| VerseProgression.TextIsVerse | backend/internal/learning/verse_progression.go:28-36 | the lines of a verse's trimmed text are that verse again |
| VerseProgression.CheckSegments | backend/internal/learning/verse_progression.go:23-38 | verses are accepted exactly when each is clear and no reference repeats |
| VerseProgression.SplitVerses | backend/internal/learning/verse_progression.go:16-39 | the verses of a text |
| VerseProgression.SplitOfJoined | backend/internal/learning/verse_progression.go:16-39 | joining consecutive verses and splitting gives back exactly those verses |
| VerseProgression.SlicesPartition | backend/internal/learning/verse_progression.go:73-82 | the daily slices are in order, disjoint, non-empty and make up all verses in exactly ceil(n/count) days |
| VerseProgression.ProgressionIsPartition | backend/internal/learning/verse_progression.go:62-86 | a plan has a task on exactly these days, and each day's text splits into that day's slice |
| VerseProgression.Resolve | backend/internal/learning/verse_progression.go:62-86 | the task of a single source on a day: the whole text without a number of verses, and none if the number, the text, the start or the day is unusable |
| VerseProgression.ResolveAll | backend/internal/learning/verse_progression.go:42-54 | the tasks of several sources, in order |
| VerseProgression.PlanTask | backend/internal/learning/verse_progression.go:42-64 | a weekly plan stays as it is, several sources are joined, and any other plan is a single source |
| VerseProgression.SourcesJoin | backend/internal/learning/verse_progression.go:42-60 | several sources have a task exactly when one of them has verses on the day; its text splits into all their verses exactly when no reference occurs twice |
| CalendarProgress.FetchedAsOf | backend/internal/learning/calendar.go:62-67 | cutting the cached records off at the day gives the records of the day's own query on what had been recorded by then |
| CalendarProgress.NoWeekSameCount | backend/internal/learning/calendar.go:45-50 | without a week the month's and the day's records complete the same tasks |
| CalendarProgress.CachedCountIsDayCount | backend/internal/learning/calendar.go:52-68 | the cached count is the count of the day's own list |
| Percents.PercentRounds | backend/internal/learning/calendar.go:80-82 | the integer formula rounds the exact percentage to the nearest integer, halves up |
| Percents.PercentsAgreeIff | backend/internal/learning/service.go:258-262 | the doubles of the day's list give the same percent, but for one percent less on exactly four ratios |
| Percents.TwentyThreeOfForty | backend/internal/learning/service.go:258-262 | one of them: 57 against 58 |
| Doubles.DoubleError | backend/internal/learning/service.go:261 | a rounded positive number is off by at most 2^-53 of it |
| CalendarProgress.CurrentWeek | backend/internal/learning/calendar.go:38-44 | a covering week with the latest start, or none if no week covers the day |
| CalendarProgress.TaskProgress | backend/internal/learning/calendar.go:73-84 | completed is the number of tasks that some record matches; total, and the integer percent |
| CalendarProgress.Visible | backend/internal/learning/calendar.go:62-67 | exactly the records up to the day |
| CalendarProgress.Calendar | backend/internal/learning/calendar.go:10-71 | every entry of the month has as completed the number of tasks of that day's list that a check-in made by then, in the week or the day or carried over, completes; its percent is the list's or, on exactly the four ratios, one more; the cache key determines the records |
| CalendarProgress.DayCountIsSize | backend/internal/learning/calendar.go:73-104 | the day's list counts exactly the tasks that some check-in made by then completes |
| CalendarTasks.FirstPlanMeaning | backend/internal/learning/daily_verse.go:15-28 | the first plan that covers the day decides |
| CalendarTasks.DailyListedIff | backend/internal/learning/completion_modes.go:111-154 | the list starts with devotion, scripture and verse, each exactly if it is set for the day |
| CalendarTasks.WeekListed | backend/internal/learning/service.go:518-580 | and goes on with exactly the week's tasks that its settings show, in order, under their titles or those of their kinds |
| CalendarTasks.DailyTaskCompletedIff | backend/internal/learning/service.go:716-787 | a daily task is completed exactly by a check-in of its type on that day, one of a plan for a week by a recitation of its passage since the plan's first day |
| CalendarTasks.WeekTaskCompletedIff | backend/internal/learning/service.go:716-810 | a video task is completed exactly by a check-in of the week, or one carried over, that names it or one of its videos; outlines and verses by one that names the task or the week |
| CalendarTasks.BookCompletedIff | backend/internal/learning/service.go:716-787 | a reading is completed exactly by a check-in of the week, made by the day, that names the task or its title, or reads at least its pages of one of its books |
| AuditChanges.ChangedValue | backend/internal/audit/changes.go:40-83 | the recursion with its loops computes the specified difference |
| AuditChanges.NoChangeIffEqual | backend/internal/audit/changes.go:40-83 | no change is reported exactly when the values are equal |
| AuditChanges.DiffIsSymmetric | backend/internal/audit/changes.go:40-83 | exchanging the values exchanges the sides |
| AuditChanges.RedoIff | backend/internal/audit/changes.go:58-71 | putting the later side into the earlier value gives the later value if and only if no later field, at any depth, is the mark of a missing one or adds just the mark to the object before it |
| AuditChanges.LooksMissingIff | backend/internal/audit/changes.go:58-71 | the stored change of a field is the mark exactly in these two cases |
| AuditChanges.MarkIsLost | backend/internal/audit/changes.go:58-71 | both cases fail: a new field that is the mark, and a mark added to an empty object |
| AuditChanges.UndoIff | backend/internal/audit/changes.go:58-71 | the same for undoing |
| AuditChanges.ChangesRoundTrip | backend/internal/audit/changes.go:40-83 | without the reserved name, changes redo and undo each other at any depth |
| Ministry.RunKeepsInv | backend/internal/ministry/mysql_repository.go:348-585 | every run of the transactions keeps leaders, requests and decisions consistent |
| Ministry.DecidedExactlyOnce | backend/internal/ministry/mysql_repository.go:788-902 | each round of a request that is over was decided exactly once, by a moderator, by automatic approval or by the removal of the applicant, and the pending one was not |
| Ministry.DecidedAtMostOnce | backend/internal/ministry/mysql_repository.go:788-902 | no round is ever decided twice |
| Ministry.LeaderIsActiveMember | backend/internal/ministry/mysql_repository.go:633-735 | the leader of a group is always an active member of it |
| Ministry.DecisionIsOfExpectedRound | backend/internal/ministry/mysql_repository.go:832-856 | a successful decision decides the expected round and makes an approved user a member; any other changes nothing |
| Ministry.RoundsNeverDecrease | backend/internal/ministry/mysql_repository.go:403-415 | over every run rounds never decrease, a request keeps its number, and decisions stay |
| Ministry.StaleIffDecidedMeanwhile | backend/internal/ministry/mysql_repository.go:832-856 | the outcome of a decision on a round that was seen pending is the error of a reviewed or a conflicting round exactly when the history shows a decision of it since; otherwise it succeeds, unless it approves someone who has left |
| Ministry.SupersededDecisionFails | backend/internal/ministry/mysql_repository.go:832-856 | over every later run, deciding a round that was decided changes nothing and gets the error of a reviewed or a conflicting round, unless it approves someone who has left |
| Ministry.NewRoundClosesEarlier | backend/internal/ministry/mysql_repository.go:403-415 | once a join has opened a new round, deciding an earlier one changes nothing for ever |
| Ministry.Repository.RequestJoin | backend/internal/ministry/mysql_repository.go:348-519 | exactly when it succeeds; then the request is pending in a new or the open round, or approved with a plain membership, and nobody else's changes |
| Ministry.Repository.DecideRequest | backend/internal/ministry/mysql_repository.go:788-902 | which error is returned when; a rejection changes no membership, and an approval only the applicant's, to a plain one |
| Ministry.Repository.LeaveGroup | backend/internal/ministry/mysql_repository.go:521-585 | which error is returned when; afterwards the user is no active member and no administrator, and nobody else's membership has changed |
| Ministry.Repository.UpdateLeader | backend/internal/ministry/mysql_repository.go:682-730 | exactly when it succeeds; the new leader is an active member who keeps the role, and nobody else's membership changes |
| Ministry.Repository.RemoveMember | backend/internal/user/mysql_repository.go:488-515 | a removed person's pending requests are rejected, each decided once, and memberships stay |
| Ministry.Repository.DeleteGroup | backend/internal/ministry/mysql_repository.go:248-265 | a deleted group has no leader |
| MinistryMembers.MemberAfterIff | backend/internal/ministry/mysql_repository.go:348-735 | who is an active member after a step: by an approval, by automatic approval, by becoming the leader, or as before, unless by leaving |
| MinistryMembers.AdminAfterIff | backend/internal/ministry/mysql_repository.go:521-902 | who is an administrator after a step |
| MinistryMembers.MemberSince | backend/internal/ministry/mysql_repository.go:348-902 | over every run, an active member was made one since the last absence by an approval or as the leader, and has not left since |
| MinistryMembers.AdminSince | backend/internal/ministry/mysql_repository.go:348-902 | over every run, an administrator was given the role by a change of roles, and has kept it and the membership since |
| MinistryMembers.LeaderSince | backend/internal/ministry/mysql_repository.go:248-735 | over every run, a leader was set as such and the group has not been deleted since |
| MinistryMembers.ActiveAfterIff | backend/internal/ministry/mysql_repository.go:248-265 | a group is active from its creation to its deletion |
| MinistryMembers.DecisionChangesOnly | backend/internal/ministry/mysql_repository.go:832-902 | the whole effect of one decision, told by request and membership |
| Pbkdf2.DeriveKey | backend/internal/server/accounts.go:673-695 | the nested loops return the key of section 5.2 of RFC 8018 |
| Pbkdf2.DeriveBlock | backend/internal/server/accounts.go:678-691 | one block is the exclusive or of its iterations |
| Pbkdf2.XorInto | backend/internal/server/accounts.go:688-690 | the array is combined in place, octet by octet |
| Pbkdf2.OctetOfKey | backend/internal/server/accounts.go:673-695 | each octet of the key, given by its place alone |
| Pbkdf2.BlockIndexIsInt | backend/internal/server/accounts.go:681 | the four octets are the block number for every number within the standard's limit |
| Pbkdf2.CeilOfQuotient | backend/internal/server/accounts.go:676 | the rounded quotient is the number of blocks |

## Left out

- HTTP handlers, SQL text, JSON codecs and the file system: tables and directories are maps, and a locked transaction, a critical section or an atomic file replacement is one step.
- SHA-256 is replaced by the content itself, so equal hashes mean equal contents; random operation versions are fresh numbers.
- Logging, failure reports and statistics of the queue, and job objects as aliased memory: a job is a value.
- The order in which wake-ups walk the targets: any name may be woken at any time.
- Content versions inferred for jobs that older program versions wrote, and negative numbers in damaged job files.
- DeliveryRuns.NoWakeUpIsLost: speaks of the archived files only while no deletion of an archived file has failed; after such a failure the code leaves two files of one name.
- DeliveryRuns.SendsAreBounded: bounds sends only of runs in which the worker did not stop between starting a send and saving its outcome, or while closing a job; such a part is sent again, and its attempt was not counted.
- DeliveryOutcomes.TextInFlightIsNews: does not compare texts without a word, whose parts are what is compared; Delivery takes a summary's parts as given, which MessageSplit.SplitMessage makes of its text.
- DeliveryOutcomes.RemarkedSummaryIsSkipped: takes any title that starts with a visible character and no bracket; the three titles of the program do.
- DeliveryOutcomes.NothingExpiredIsSent: compares with the time at which the job was taken up, as the code does; a send may end later.
- LeaseProtocol.AssignTakesIff: does not model the chat service's list of chats, which the manager asks before it assigns, nor a manager that was closed with its robot.
- Jobs.JobStore.ClearFailed: does not model a deletion that fails half way.
- MessageSplit.SplitMessage: is about valid UTF-8 texts.
- Fleet.RobotFleet.RegisterRobot: authenticating a robot, validating its input and opening its queue directory are not modelled.
- ZkSyncTwins.CanMeetKeyIff: compares texts character by character, while the database's collation also ignores case, and looks at active records only; the run goes on in the model where the program's transaction would end.
- ZkSyncProgram.Synchronizer.Sync: does not model dry runs, the report, records that are not objects, and the rollback when the database refuses a statement.
- StudyBinding.LatestIsShownIff: is about runs in which no other device edits, and in which no upload of the run itself is first reported as failed and then executed.
- StudyMemory.Memory.Change: storage that refuses a write is not modelled.
- ScheduleHistory.PastVersionKept: says nothing about days before the earliest start, where the earliest version is shown; with two versions of that start the shown one can change.
- ScheduleHistory.Save: schedules whose stored history is not a list are not modelled.
- VerseProgression.SplitVerses: the Han script is represented by two blocks of it; differences of dates beyond 292 years saturate in the code.
- CalendarProgress.Calendar: dates are day numbers and the daily components' own settings are sets of days; of several weeks with one start the database may choose another than the calendar.
- Percents.PercentsAgreeIff: is about at most 2^43 tasks a day.
- AuditChanges: values are normalised JSON, with numbers as texts.
- CanonicalText.MarkedLabelIsInvisible: is about one marker after a space; for whole summaries see Summaries.MarksDoNotCount.
- Ministry.RunKeepsInv: is about one study group, with requests named by group and user instead of their number; notifications, shares and attendance are left out.
- Pbkdf2.DeriveKey: takes any pseudorandom function with a fixed output length in place of HMAC, and computes the number of blocks over the reals.
- Session tokens, login limits, asset storage, backups, migration tools and the rest of the user interface are not part of this model.
