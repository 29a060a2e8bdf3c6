# LabBridge: a verified model of the reliability protocol

LabBridge has an edge Agent that keeps a durable queue of jobs in SQLite, and a control plane that keeps runs, raw
files, parsed records and idempotency receipts in PostgreSQL. A job starts a run, plans and archives its files, sends a
manifest, parses the archives, sends a report and leaves the queue; on the way it may wait for a retry or for a person.
The Agent may crash between any two of its transactions, and every request may be lost, repeated, delayed, or applied
without its answer arriving. This project models both sides, the network between them and the algorithms they rely on,
and proves what the system promises about all of it.

How it is organised:

- **The Agent.** `QueueModel` gives each queue transaction as a function on values, and `QueueStore` the class that
  performs it. `Planning`, `Collecting`, `Reporting` and `DeliveryClient` are the loops of the executor and of the
  delivery client. What these functions give is said apart from them: `QueueEffects` and `Completion` for the queue,
  `PlanAccounts` for a plan, `ReportContents` for a report. `JobInvariant` says what holds of every job row.
- **The control plane.** `ControlPlane` gives each committed PostgreSQL transaction as a function on the tables, and
  `ReportService` the class that performs the two report transactions step by step. `ServerInvariant` is kept by every
  transaction, whatever is requested by whom; `ServerAnswers` says of each transaction what it checks in which order, and
  what it writes, field by field. `RetryChain` and `ReceiptIds` build on it.
- **The protocol.** `Protocol` is the step relation of Agent, network and control plane; `ProtocolInvariant`,
  `AgentSteps`, `PassSteps`, `ReportSteps`, `BeginSteps`, `DeliverySteps`, `ServerGrowth`, `ServerSteps` and
  `ProtocolSafety` prove the joint invariant; `ProtocolTheorems`, `Replays`, `PlanAcceptance`, `JobHistory`,
  `ReportHistory` and `QueueBounds` say what follows; `SlotsOnce` joins it to the runs of the scheduler in `SchedulerRuns`, `SlotRepeats` builds
  the runs that go wrong without one, and `ArchiveDurability` joins it to a file system that loses power.
- **Row locks.** `TaskRuns` cuts accept, retry, start, enable, disable and report into their statements and locks, says exactly
  which steps and answers of an interleaving are those of the atomic transactions of `ControlPlane`, and that nobody waits
  in a cycle; `TaskRunRaces` builds the interleavings in which they are not.
- **Algorithms.** `Cron`, `CronSearch`, `CronWeekdays`, `Scheduler`, `Calendar`, `UtcTimestamps`, `Fingerprint`, `Keys`,
  `Csv`, `CsvRecords`, `Codec`, `Archive`, `ArchivePaths`, `Paging`, with `Messages` and `Decimals` underneath.

Where the source changes state in place, a class method or a loop is proved against a function, and the promises are
proved about that function.

## Premises

- SQLite and PostgreSQL transactions are atomic, with the uniqueness rules of `deploy/schema.sql` and of the queue
  schema. One worker runs the jobs of a queue.
- SHA-256 is injective, and no digest starts with `operator:`. Ids drawn by the database are fresh and not empty.
- Parsing an archive gives the same outcome whenever the archive can be read, and it gives a payload with every record.
  The messages of failed reads, archives and parses are not empty. A directory listing names a path once.
- In `Protocol` each PostgreSQL transaction is one step. `TaskRuns` says exactly when that is right for transactions that
  overlap: always, but for a report that read its run while it was pending, and for two requests under one operator key.
- The promises that no resend conflicts, and that a run has exactly one report, are unconditional for manual and retry
  keys (`ProtocolTheorems.OperatorKeysCountAsBegunOnce`). A scheduled key must be begun once. It is, through restarts of the
  Agent and any changes of configuration, as long as no configuration brings a task back at a time before a slot that the
  task was dispatched for (`SlotsOnce.WholeRunRepeatsNothing`): that holds when the clock does not go back that way
  (`SchedulerRuns.RisingClockResumes`) or the task stays configured (`StayingResumes`). What a repeated slot may lead to is
  in `SlotRepeats`.
- Nobody but the Agent writes below its archive directory. The kernel may write anything back, and the power may go, at any
  moment (`ArchiveDurability.RunsOn`).

## Where the code falls short of a promise

Each of these is proved, with the exact condition or a concrete case.

- A report that reads its run while the run is pending can take it straight to finished, and can overwrite the outcome of a
  run that a disable settled in between; only the status read before the claim stands guard, and the update of the row has
  no condition (`TaskRuns.ReportCommit`, `StepIsSerialIff`, `FinishedRowChangesIff`, `TaskRunRaces.PendingReadCanOverwrite`).
- A manual or retry request whose insert finds its key taken is answered with the run it finds, whatever that run was for
  (`TaskRuns.RacedInsertAnswer`, `AnswerIsAtomicIff`, `TaskRunRaces.RacedAcceptsDisagree`).
- A scheduled start is answered running even when the run is over, so a slot dispatched twice is collected again, and its
  second manifest or its second report is refused as a conflict (`SlotRepeats.StartAgain`, `RebegunSlotManifest`,
  `RebegunSlotReport`; `ProtocolTheorems.SecondManifestConflictsIff`, `SecondReportConflictsIff`). A slot is dispatched twice
  when the Agent restarts and its clock has gone back behind the slot (`SchedulerRuns.ClockBackRepeatsSlot`).
- Two retry targets that lead to one file make the queue refuse the plan (`PlanAcceptance.AliasedTargetsAreRefused`;
  `TargetPlanIsSavedIff` says exactly when a plan is taken). The refusal is an error of the queue, which stops the Agent, and
  stops it again after every restart for as long as both paths lead to that file; the run gets no report. A list that the
  Agent reported itself does not do this while its paths lead where they led (`PlanAcceptance.OwnPathsAreSaved`): it lists
  canonical paths of files that are no links. Another client of the report interface can post two spellings of one path
  (`PlanAcceptance.AnyTwoPathsAreRetried`), and a directory can have become a link since.
- When the clock has gone back behind as many processed rows of a task as the capacity, the files of a job are forgotten as it
  completes, and the next listing takes them again (`Completion.LaterRowsShutOut`; `AddedRowStaysIff` says exactly which stay).
- An attempt to archive that crashes while it copies leaves its temporary name behind. Numbers of temporary names start from
  zero in every process, so the next one may draw the same number; recovery of that file then fails, and the file is reported
  as failed although nothing is wrong with it (`Archive.RecoverArchive`: it succeeds only if nothing stands in the way).
- A record without a time passes the CSV parser, is persisted in a report, and makes that report unreadable
  (`Csv.RecordTimeMayBeEmpty`, `Codec.RecordWithoutTimeIsLost`, `Codec.ReportRoundTrip`).
- The timestamp parser accepts a signed hour that the validator refuses (`Calendar.ParserAcceptsSignedHour`).
- The cron search starts a minute late for some times before 1970 (`Cron.NextMinuteIsLeast`), and its bound is too short
  for some schedules that restrict both day fields: 31 December on a Sunday is missed after 2006
  (`CronSearch.SundayNewYearsEveIsMissed`). `CronWeekdays.ExpressionBoundIsEnoughIff` says for which schedules it can happen.
- The comparison of task ids has cycles when ids are not all digits (`Scheduler.TaskIdLessCycles`), exactly as described by
  `Scheduler.TaskIdLessIsOrderIff`; due tasks are then executed in no consistent order (`Scheduler.SortDue`).

## Model

| member | source | states |
|---|---|---|
| ProtocolSafety.InvariantHolds | agent/src/execution/task_executor.cpp:529-657 | The joint invariant of queue, network, worker and control plane holds in every state of every run, through crashes between any two transactions and requests that are lost, repeated, delayed or answered without the answer arriving. |
| ProtocolSafety.StepHolds | agent/src/execution/task_executor.cpp:400-657 | Each of the 27 kinds of step (SQLite transaction, PostgreSQL transaction, message, crash, operator action) keeps the joint invariant. |
| ProtocolTheorems.AtMostOneEffect | server/src/postgres/agent_report_receipt_repository.cpp:121-216 | In every reachable state an execution key has at most one run, a run at most one manifest receipt and at most one report receipt, and every committed receipt is complete; scheduled slots dispatched twice included. |
| ProtocolTheorems.ExactlyOneReport | server/src/application/agent_report_service.cpp:218-421 | Exactly-once effect: when the run of a key begun once has a report, its stored records, its outcome row and its receipt are those of one report request, which is the only one the Agent ever sent for the key and the one still persisted. |
| ProtocolTheorems.OperatorKeysCountAsBegunOnce | agent/src/execution/task_executor.cpp:688-720 | The exemption for keys begun again never covers a manual or retry key, although such a key can be begun again from a stale poll: what is promised of keys begun once holds of all of them. |
| ProtocolTheorems.ManifestNeverConflicts | server/src/application/agent_report_service.cpp:162-216 | A manifest of a key begun once is always accepted or replayed, at whatever later moment it is handled, with one exact exception: it was not answered before and one of its entries has no name or path; then it is invalid. |
| ProtocolTheorems.ReportNeverConflicts | server/src/application/agent_report_service.cpp:218-421 | A report of a key begun once is always accepted or replayed, with two exact exceptions, both when it was not answered before: a record names no raw file or no rule, then it is invalid; or else a QC rule is missing or unusable today. No idempotency conflict, no second report of the run, no finished run, no bad failure list, no foreign record. |
| ProtocolTheorems.StartNeverConflicts | server/src/application/task_run_service.cpp:96-228 | The start that a waiting job sends is never told that its key was used for another run or was never accepted, scheduled slots dispatched twice included. |
| Replays.HistoryGrows | server/src/postgres/agent_report_receipt_repository.cpp:121-216 | Along every run of the system no row of the control plane is lost, and no receipt, raw file or stored record ever changes. |
| Replays.ManifestAnswerIsFinal | server/src/postgres/agent_report_receipt_repository.cpp:121-187 | In every run of the system: once a manifest was answered, every later handling of it answers the same ids and changes nothing. |
| Replays.ReportAnswerIsFinal | server/src/postgres/agent_report_receipt_repository.cpp:121-187 | In every run of the system: once a report was answered, every later handling of it answers the same id lists, whatever became of the QC rules, and changes nothing. |
| Replays.StartAnswerIsFinal | server/src/application/task_run_service.cpp:96-228 | In every run of the system: once a start was answered with a run, a later start under the same key, from whichever request, is answered with that run if with any, and creates none. |
| ProtocolTheorems.AnswerIsTakenUp | agent/src/execution/task_executor.cpp:529-657 | Whatever success the worker is answered in a reachable state, the queue transaction that acts on it commits: no stage, binding or existence check of the store can refuse it. |
| PlanAcceptance.DraftIsSavedIff | agent/src/storage/agent_queue_store.cpp:795-824 | The queue takes the file plan of a job without one if and only if no size is negative and no two files of the plan have one fingerprint. |
| PlanAcceptance.DirectoryPlanIsSaved | agent/src/execution/task_executor.cpp:270-317 | A directory plan is always taken, as long as no listed path contains a line break. |
| PlanAcceptance.TargetPlanIsSavedIff | agent/src/execution/task_executor.cpp:319-398 | In a reachable state, whatever the checks of the targets find: the plan of a retry is drawn and taken if and only if the ids of task and run can stand in a path, and of the targets that are accepted and not in flight no two show one fingerprint and none a negative size. |
| PlanAcceptance.TargetPlanIsSaved | agent/src/execution/task_executor.cpp:319-398 | So it is always taken when the accepted targets lead to pairwise different paths of one line each. |
| PlanAcceptance.OwnPathsAreSaved | agent/src/execution/task_executor.cpp:319-398 | In particular when every accepted target leads to the path it was listed under, as the canonical paths of a directory listing do. |
| PlanAcceptance.FingerprintIdentifies | agent/src/execution/local_archive_store.cpp:148-150 | The fingerprints of two files of a task are equal if and only if path, size, time and hash are, when paths and times are one line: a file that has changed is another one. |
| PlanAcceptance.AnyTwoPathsAreRetried | server/src/application/task_run_service.cpp:426-477 | The control plane accepts any two different path texts as failed files and resolves them to two source targets: it cannot know that they lead to one file. |
| PlanAcceptance.AliasedTargetsAreRefused | agent/src/execution/task_executor.cpp:360-396 | Whenever two source targets of a list, at any places, lead to one file that no pending job has, the queue refuses the plan, and so at every later attempt that finds them so. |
| ProtocolTheorems.ManifestIsSaved | agent/src/storage/agent_queue_store.cpp:999-1030 | The manifest of a finished pass can always be saved; neither the stage check nor the unique delivery key stands in the way in a reachable state. |
| ProtocolTheorems.ReportIsSaved | agent/src/storage/agent_queue_store.cpp:1089-1150 | Any report a collecting or reporting job builds under its derived key can always be saved in a reachable state. |
| ProtocolTheorems.RecordsComeFromTheirArchive | agent/src/storage/agent_queue_store.cpp:1032-1087 | Evidence binding: in every reachable state each stored record came out of parsing the archive that its raw file is stored under, and both belong to one run, whichever files were absent from the manifest. |
| ProtocolTheorems.FilesAreOwned | agent/src/storage/agent_queue_store.cpp:1493-1535 | In every reachable state pending jobs of one task share no fingerprint, the queue is within its capacity, and a fingerprint is processed only if the report of its run was committed. |
| ProtocolTheorems.NoFailureIsLost | agent/src/execution/task_executor.cpp:400-501 | In every reachable state a file of a job has an error exactly when it is in the persisted list, which names each path once; the saved report adds up, and says succeeded only if every selected file was archived, acknowledged and parsed without an error. |
| ProtocolTheorems.SavedListIsValid | server/src/application/agent_report_service.cpp:455-531 | Every failure list the Agent saves, through crashes and on the collection failure path, is valid for the fixed retry snapshot of its run. |
| ReportHistory.SavedReportSaysAll | agent/src/execution/task_executor.cpp:503-527 | In every reachable state a saved report says all that the files of its job gave when some archives could not be read: every parsed record once, every error, every failed file, and their numbers; only the report of a collection that failed as a whole says no more than the persisted list. |
| ReportHistory.StepSettles | agent/src/storage/agent_queue_store.cpp:1089-1150 | No step but the two that save a report adds one, and no step changes the files, the failures or the report of a job that has one, but to take the job away. |
| ReportHistory.ListedIsReported | agent/src/execution/task_executor.cpp:417-447 | Over any stretch of a run in which a job stays in the queue: what is in its persisted list stays there, once, and is in its report, which has then failed. |
| ReportHistory.UnreadableIsListed | agent/src/execution/task_executor.cpp:289-296 | Every file of a listing that cannot be read, and that the limit lets the draft reach, is in the persisted list as soon as the plan is saved, with its message. |
| ReportHistory.MissedTargetIsListed | agent/src/execution/task_executor.cpp:330-396 | So is every retry target that is rejected or in flight, with the reason and the archive it still refers to. |
| ReportHistory.ArchiveFailureIsListed | agent/src/execution/task_executor.cpp:474-486 | So is a file that fails to be archived: it alone is marked, and it is listed with the same message and the archive it is a replay of. |
| ReportHistory.SavedManifestListsAll | agent/src/execution/task_executor.cpp:448-494 | In every reachable state a saved manifest lists exactly the files without an error, in order, each once, with what was read of it and its archive path; all of them are archived. |
| ReportHistory.CleanFileIsOccupied | agent/src/storage/agent_queue_store.cpp:1152-1200 | When a job leaves the queue, each file that its report counts as clean and that was not processed before is occupied, so that no listing takes it again, provided the capacity has room for the job and no row of the task is later than the clock. |
| ProtocolTheorems.DeliveriesHaveOneOwner | agent/src/storage/agent_queue_store.cpp:87-104 | In every reachable state a request type and idempotency key belong to one job at most. |
| ProtocolTheorems.ReceiptKeyDerived | agent/src/execution/task_execution_client.cpp:37-53 | In every reachable state a receipt is kept under the key derived from its own run. |
| ProtocolTheorems.SecondManifestConflictsIff | server/src/application/agent_report_service.cpp:77-92 | In every reachable state and for every key, begun once or again: a manifest is an idempotency conflict if and only if the receipt of its run was written for a manifest of the same key that differs in more than its key and the default ingest status; and then the key was begun again. |
| ProtocolTheorems.SecondReportConflictsIff | server/src/application/agent_report_service.cpp:94-135 | The same for reports; and in no reachable state is a report refused because another receipt reported its run. |
| SlotRepeats.StartAgain | server/src/application/task_run_service.cpp:155-179 | In a reachable state, a slot that is begun again is answered with its run, running, though the run may be over, and nothing changes. |
| SlotRepeats.RebegunSlotManifest | server/src/application/task_run_service.cpp:174-179 | For every slot and any two files: a run of the whole system, built step by step, in which the first dispatch is completed, the slot is begun again and its second manifest is sent; every handling of it is refused as a conflict if and only if name, size, time or hash of the second file differ from those of the first. |
| SlotRepeats.RebegunSlotReport | server/src/application/task_run_service.cpp:174-179 | For every slot that finds the same file twice: a run of the whole system in which the second manifest is replayed and the second report is sent; every handling of it is refused as a conflict if and only if the second job finished at another time. |
| SlotsOnce.NothingIsRepeated | agent/src/execution/task_executor.cpp:655-686 | In every run of the system that dispatches no slot of a task twice, no key is ever begun again after its job has gone. |
| SlotsOnce.SchedulerRepeatsNothing | agent/src/scheduler/task_scheduler.cpp:199-239 | In every run whose scheduled jobs come from one history of the scheduler for each task, where slots strictly increase, no key is begun twice; so the promises for keys begun once hold for all keys. |
| SlotsOnce.WholeRunRepeatsNothing | agent/src/scheduler/task_scheduler.cpp:121-270 | The same for every sequence of calls of the scheduler, restarts of the Agent and changes of configuration included, in which no configuration brings a task back before a slot it was dispatched for. |
| SchedulerRuns.DispatchedSlotsRise | agent/src/scheduler/task_scheduler.cpp:121-270 | Over such a whole sequence of calls, whatever tasks come and go and wherever the clock jumps, the slots dispatched for a task strictly increase. |
| SchedulerRuns.RisingClockResumes | agent/src/scheduler/task_scheduler.cpp:121-180 | No configuration does that if none is applied at an earlier time than a dispatch before it. |
| SchedulerRuns.StayingResumes | agent/src/scheduler/task_scheduler.cpp:121-180 | Nor if every task that was dispatched stays configured, wherever the clock jumps. |
| SchedulerRuns.ClockBackRepeatsSlot | agent/src/scheduler/task_scheduler.cpp:121-239 | Otherwise it can: for every task and every time, a restart after the next slot was dispatched, with the clock back at that time, dispatches the slot again. |
| SlotsOnce.BehaviourRuns | agent/src/execution/task_executor.cpp:529-657 | Every behaviour of the protocol is such a run with its steps named, so naming them excludes none. |
| JobHistory.StepAdvances | agent/src/storage/agent_queue_store.cpp:740-1426 | No step rewrites a persisted request, the identity or the selection of a job that stays in the queue; its failure list only grows and its attempt counters never fall. |
| JobHistory.HistoryAdvances | agent/src/execution/task_executor.cpp:400-657 | The same over any stretch of a run: persisted requests are never rewritten, files are selected at most once, and every failure stays listed. |
| JobHistory.LeavesOnlyWhenSettled | agent/src/storage/agent_queue_store.cpp:1152-1234 | A job leaves the queue only after its report was committed, or because the control plane said that its run was over before any plan existed. |
| JobHistory.ProcessedAfterCleanParse | agent/src/storage/agent_queue_store.cpp:1152-1200 | What completing a job adds to the processed files are fingerprints of its own files that parsed without an error, after its report was committed. |
| JobHistory.DirectoryTakesFreeFiles | agent/src/execution/task_executor.cpp:270-317 | A directory plan never selects a fingerprint that is processed or that a pending job has, and plan and failures together stay within the limit of the run. |
| JobHistory.CapacityHolds | agent/src/storage/agent_queue_store.cpp:1152-1200 | In every reachable state the processed files of every task are within the capacity. |
| JobHistory.OtherStepsRemoveNothing | agent/src/storage/agent_queue_store.cpp:1152-1234 | No step but the two that close a job takes a job out of the queue. |
| JobInvariant.AttentionKeepsStage | agent/src/storage/agent_queue_store.cpp:1236-1302 | Going to attention is refused only to a job that is there already, and hides the stage to resume without losing requests, plan or attempts. |
| JobInvariant.RetryRestoresStage | agent/src/storage/agent_queue_store.cpp:1651-1737 | Retrying an attention job always determines its stage, restores exactly the stage it had, and touches nothing else. |
| JobInvariant.AttentionRoundTrip | agent/src/storage/agent_queue_store.cpp:1236-1302 | To attention and back from any stage: the job is as it was, but for the recorded error kind. |
| JobInvariant.BindingFollowsEntries | agent/src/storage/agent_queue_store.cpp:1032-1087 | Binding by archive path succeeds for the entries the executor sends, and gives every archived file the id answered at the position of its own entry. |
| JobInvariant.FailedJobOk | agent/src/storage/agent_queue_store.cpp:917-959 | Marking a file failed and writing the longer list in one transaction keeps file errors and list in step. |
| JobInvariant.AmendmentIsIdle | agent/src/execution/task_executor.cpp:418-447 | For a queue that this version wrote, the repair of half-written failure lists changes nothing. |
| JobInvariant.AmendmentCompletes | agent/src/execution/task_executor.cpp:417-446 | The repair of an older list keeps what is there and adds each marked file that is missing from it, once, with its error and the archive it is a replay of, and nothing else. |
| JobInvariant.PlannedPathsAreDistinct | agent/src/execution/local_archive_store.cpp:243-256 | The archive paths planned for the files of a job are pairwise distinct, so binding by path is unambiguous. |
| DeliverySteps.BoundByPath | agent/src/storage/agent_queue_store.cpp:1032-1087 | Every answered id lands on the file whose archive path was sent at its position, whichever files failed in between. |
| DeliverySteps.ManifestBinds | agent/src/storage/agent_queue_store.cpp:1032-1087 | The queue never refuses the ids of an accepted manifest, and the row it writes is the bound one. |
| DeliverySteps.DiscardKeeps | agent/src/storage/agent_queue_store.cpp:1202-1234 | A discarded job never had a plan, and its run was already over at the control plane. |
| DeliverySteps.CompleteKeeps | agent/src/storage/agent_queue_store.cpp:1152-1200 | When a job is completed, the very report it persisted is committed under a completed receipt with the answered ids. |
| BeginSteps.ScheduledKeyInjective | agent/src/execution/task_execution_client.cpp:32-43 | The execution key of a slot determines its task and its slot. |
| BeginSteps.ScheduledRunFits | server/src/postgres/task_run_repository.cpp:82-127 | Any run found under the key of a slot was started for that slot of that task. |
| BeginSteps.ManualKeyClean | agent/src/execution/task_executor.cpp:688-720 | A manual key that is begun again after its job has gone belongs to a run that is over, so nothing that was sent for it can conflict. |
| ReportSteps.BuiltListValid | agent/src/execution/task_executor.cpp:529-657 | The failure list of any report built from a job passes the checks of the control plane for the job's retry snapshot. |
| ReportSteps.CollectionListValid | agent/src/execution/task_executor.cpp:503-527 | So does the list of a report for a collection that failed as a whole. |
| ReportSteps.BuiltReportTrue | agent/src/execution/task_executor.cpp:529-657 | The built report adds up, and says succeeded only if every selected file was archived, acknowledged and parsed without an error. |
| QueueBounds.CompletionBounds | agent/src/storage/agent_queue_store.cpp:1152-1200 | Completing a job brings its own task within the processed capacity and leaves the count of every other task alone. |
| QueueBounds.RankedRowsFit | agent/src/storage/agent_queue_store.cpp:1152-1200 | Trimming by processed time and row order keeps no more rows of the task than the capacity. |
| Completion.CompletionChooses | agent/src/storage/agent_queue_store.cpp:1152-1200 | What completing a job leaves among the processed files: to the rows before, one is added for each cleanly parsed fingerprint that was unknown, in file order; all rows of other tasks stay; of the task none is dropped that is newer than one that stays, and none at all unless exactly the capacity stays. |
| Completion.AddedRowStaysIff | agent/src/storage/agent_queue_store.cpp:1170-1189 | A row that the job adds stays if and only if the rows of the task that are later than the clock and those added after it are fewer than the capacity. |
| Completion.CleanFilesStay | agent/src/storage/agent_queue_store.cpp:1152-1200 | So, if no row of the task is later than the clock and the capacity has room for the job, every cleanly parsed file that was not processed before is processed afterwards. |
| Completion.LaterRowsShutOut | agent/src/storage/agent_queue_store.cpp:1170-1189 | And if the rows that are later than the clock fill the capacity, none of them is. |
| QueueStore.AgentQueueStore.BeginJob | agent/src/storage/agent_queue_store.cpp:740-793 | Creates the job, finds it queued already under the same identity, or refuses and changes nothing (full queue, foreign node or task, key reused). |
| QueueStore.AgentQueueStore.SaveFilePlan | agent/src/storage/agent_queue_store.cpp:795-824 | Saves plan and failures once, or refuses and changes nothing. |
| QueueStore.AgentQueueStore.SaveFileFailures | agent/src/storage/agent_queue_store.cpp:893-915 | Replaces the failure list of one job, or changes nothing. |
| QueueStore.AgentQueueStore.MarkFileFailed | agent/src/storage/agent_queue_store.cpp:917-959 | Marks one row and writes the list in one transaction, or changes nothing. |
| QueueStore.AgentQueueStore.AcceptStart | agent/src/storage/agent_queue_store.cpp:961-978 | Takes the run id and opens the collecting stage, only from the start stage. |
| QueueStore.AgentQueueStore.MarkFileArchived | agent/src/storage/agent_queue_store.cpp:980-997 | Marks exactly the rows of the ordinal, or changes nothing. |
| QueueStore.AgentQueueStore.SaveManifest | agent/src/storage/agent_queue_store.cpp:999-1030 | Persists the manifest once and moves to its delivery, only from collecting. |
| QueueStore.AgentQueueStore.AcceptManifest | agent/src/storage/agent_queue_store.cpp:1032-1087 | The loop binds each answered id to the only row with the path that was sent for it; all of them are bound, or nothing changes. |
| QueueStore.AgentQueueStore.SaveReport | agent/src/storage/agent_queue_store.cpp:1089-1150 | Persists the report and the parse outcome of every file once, or changes nothing. |
| QueueStore.AgentQueueStore.CompleteJob | agent/src/storage/agent_queue_store.cpp:1152-1200 | Removes a reported job, adds its cleanly parsed files and trims the task in one transaction, which performs the function that Completion.CompletionChooses says in full. |
| QueueStore.AgentQueueStore.DiscardStartPendingJob | agent/src/storage/agent_queue_store.cpp:1202-1234 | Removes a job that has no plan and never started, and no other. |
| QueueStore.AgentQueueStore.MarkRequiresAttention | agent/src/storage/agent_queue_store.cpp:1236-1302 | Saves the stage to resume with the side state, or refuses and changes nothing. |
| QueueStore.AgentQueueStore.RecordDeliveryFailure | agent/src/storage/agent_queue_store.cpp:1304-1392 | Counts the attempt of the owning job and moves it to waiting or attention; fails exactly when nobody owns the delivery. |
| QueueStore.AgentQueueStore.ResumeDelivery | agent/src/storage/agent_queue_store.cpp:1394-1426 | Returns the owning job to the stage it waited for. |
| QueueStore.AgentQueueStore.DeliveryAttemptCount | agent/src/storage/agent_queue_store.cpp:1450-1467 | The attempts of the delivery, and nothing exactly when nobody owns it. |
| QueueStore.AgentQueueStore.DeliveryExecutionKey | agent/src/storage/agent_queue_store.cpp:1469-1486 | An owner of the delivery if there is one. |
| QueueStore.AgentQueueStore.IsFileOccupied | agent/src/storage/agent_queue_store.cpp:1493-1516 | Whether the fingerprint of the task is processed or in a pending plan. |
| QueueStore.AgentQueueStore.IsFileInFlight | agent/src/storage/agent_queue_store.cpp:1518-1535 | Whether the fingerprint of the task is in a pending plan. |
| QueueStore.AgentQueueStore.RetryAttentionJob | agent/src/storage/agent_queue_store.cpp:1651-1737 | Restores the stage of an attention job; any other job is reported and left alone. |
| QueueEffects.BeginEffect | agent/src/storage/agent_queue_store.cpp:740-793 | A job is begun, with the request, the targets and nothing else, if and only if the request is for this node and task, its key is unused and there is room; it is there already exactly for the same task and slot. |
| QueueEffects.FailedEffect | agent/src/storage/agent_queue_store.cpp:917-959 | Marking a failure changes the error of the files with that ordinal and the list of that job, and nothing else; it commits if and only if there is such a file. |
| QueueEffects.ManifestEffect | agent/src/storage/agent_queue_store.cpp:999-1030 | A manifest is saved, uncounted, if and only if its job collects, has none, and no delivery has its key. |
| QueueEffects.BoundEffect | agent/src/storage/agent_queue_store.cpp:1032-1087 | Acknowledging a manifest changes raw file ids only, and moves the job on from its manifest stage only. |
| QueueEffects.ReportEffect | agent/src/storage/agent_queue_store.cpp:1089-1150 | A report is saved, uncounted and with the parse outcome of each file, if and only if its job has none and no delivery has its key; a job that waits for a person stays where it is. |
| QueueEffects.AttentionEffect | agent/src/storage/agent_queue_store.cpp:1236-1302 | A job is set aside with its cause and the stage it would be taken up at, if and only if it is not aside already and has such a stage. |
| QueueEffects.FailureCounted | agent/src/storage/agent_queue_store.cpp:1304-1392 | A failed delivery is counted once, for its own request; a job that waits for it moves aside, remembers where it was and why, and counts it too; nothing else changes. |
| QueueEffects.RetryEffect | agent/src/storage/agent_queue_store.cpp:1651-1737 | A person takes a job up at the stage it remembers; without one only an archive conflict, which is collected again. |
| Planning.PlanFromDirectory | agent/src/execution/task_executor.cpp:270-317 | The loop over the directory ends with the draft of the specification, which PlanAccounts.DirectoryAccounts says in full. |
| Planning.DirectoryDraftSound | agent/src/execution/task_executor.cpp:270-317 | A directory draft takes each file at most once, never an occupied one, stays within the limit, and its failures are read failures without a reference. |
| PlanAccounts.DirectoryAccounts | agent/src/execution/task_executor.cpp:283-316 | Every listing is accounted for: the first ones up to the limit are looked at, and of these an unreadable one is in the list of failures with its message, a free one in the plan with its own name, size, time, hash, fingerprint and path, and an occupied one in neither; each in the order of the listing, and there is nothing else. The rest is left out only because the limit has been reached. |
| PlanAccounts.DirectoryDraftedIff | agent/src/execution/task_executor.cpp:300-305 | There is a draft if and only if no free listing is reached or the ids of task and run can stand in a path. |
| Planning.PlanFromRetryTargets | agent/src/execution/task_executor.cpp:319-398 | The loop over the fixed targets ends with the draft of the specification, which PlanAccounts.TargetAccounts says in full. |
| Planning.TargetDraftSound | agent/src/execution/task_executor.cpp:319-398 | A retry draft accounts for every target exactly once, as a planned row or a failure, and every failure keeps the reference of its target. |
| PlanAccounts.TargetAccounts | agent/src/execution/task_executor.cpp:319-398 | Every retry target is accounted for, in order: one that is accepted and not in flight is planned, an archive by its recorded snapshot and a source by what the check found; any other is in the list of failures with the reason. |
| Collecting.RunCollectingStage | agent/src/execution/task_executor.cpp:400-501 | Files are selected only if they never were, and then exactly as drawn; every file without an error is then dealt with as its outcome says, the failures are listed in order with their messages, and the manifest lists exactly the archived files; or the stage stops at the first archive that contradicts its evidence. A queue error means that another delivery has the key of the manifest, or that the plan was refused. |
| Collecting.SelectFiles | agent/src/execution/task_executor.cpp:402-416 | What is saved is what is drawn, from the directory or from exactly the fixed targets; it is refused or not saved exactly when there is no draft or the queue does not take it. |
| Collecting.RunPass | agent/src/execution/task_executor.cpp:449-492 | After every file the accumulated list is the one on disk, so the pass can be cut short anywhere; it holds the list before and each file that failed now, in order, with its message and the archive it is a replay of; the entries are those of exactly the files that have not failed. |
| Collecting.AmendFailures | agent/src/execution/task_executor.cpp:418-447 | A list that lacks a marked failure is completed as JobInvariant.AmendmentCompletes says, and nothing else changes. |
| Collecting.ArchiveSelected | agent/src/execution/task_executor.cpp:449-501 | Archiving the selection and saving the manifest of what succeeded. |
| Reporting.BuildReport | agent/src/execution/task_executor.cpp:581-651 | The loops over the files, records and rules build the report and the parse outcomes of the specification, which ReportContents.BuiltReportTellsAll says in full. |
| Reporting.TallyConserves | agent/src/execution/task_executor.cpp:595-637 | Total is success plus failed, and success is the number of records, after every file. |
| Reporting.TallyFailures | agent/src/execution/task_executor.cpp:581-637 | Persisted failures come first and unchanged; what follows are parse failures in file order, each with the raw file id of its file. |
| Reporting.TallyComplete | agent/src/execution/task_executor.cpp:595-637 | Every file that parsed with an error is listed under the parse stage. |
| Reporting.TallyPathsUnique | agent/src/execution/task_executor.cpp:581-637 | The final list names each source path once. |
| Reporting.SucceededMeansAllClean | agent/src/execution/task_executor.cpp:640-646 | The report says succeeded if and only if no failure is persisted and every file was acknowledged and parsed without an error. |
| ReportContents.BuiltReportTellsAll | agent/src/execution/task_executor.cpp:581-651 | What a built report contains: every record of every parsed file, file by file and in order, each once, with the raw file id of its file and the result of every rule in order; success and failed are the numbers of records and of errors, a failed parse counting as one; every error text; every file that did not parse cleanly after the persisted failures, with its first error; succeeded exactly without any; and the files marked clean are those that parsed cleanly. |
| ReportContents.RecordsAreDetermined | agent/src/execution/task_executor.cpp:616-637 | So the records of a report are determined by the files, the parser and the rules: none is lost and none is listed twice. |
| ReportContents.SummaryBegins | agent/src/execution/task_executor.cpp:595-645 | The summary begins with the number of errors and goes on with the first one, as far as its 512 characters reach. |
| DeliveryClient.Deliver | agent/src/execution/reliable_delivery_client.cpp:92-168 | For every sequence of call outcomes: where the job ends, how often the request was counted as failed, which outcomes led there; a call is made only at exactly the stage of the request, and no other job, request or plan changes. |
| DeliveryClient.AbandonOversizedBody | agent/src/execution/reliable_delivery_client.cpp:75-90 | A body over the limit sends its job to attention as payload_too_large. |
| DeliveryClient.RetryDelay | agent/src/execution/reliable_delivery_client.cpp:61-73 | The delay doubles from the initial one up to the maximum; jitter adds at most a fifth, and by the hash of the request anything from nothing to all of it. |
| ReportService.AgentReportService.Claim | server/src/postgres/agent_report_receipt_repository.cpp:121-184 | Inserts an incomplete receipt unless a unique index forbids it; otherwise replays, or says which conflict it is, and changes nothing. |
| ReportService.AgentReportService.Complete | server/src/postgres/agent_report_receipt_repository.cpp:186-216 | Completes exactly the claimed receipt. |
| ReportService.AgentReportService.AcceptRawFileManifest | server/src/application/agent_report_service.cpp:162-216 | One transaction: raw files in manifest order with a completed receipt that answers their ids, or no change at all. |
| ReportService.AgentReportService.ValidateFailedFiles | server/src/application/agent_report_service.cpp:455-531 | The entry by entry checks accept exactly the lists that are unique by path, empty on success, within the retry targets, and keep every archive reference. |
| ReportService.AgentReportService.AcceptTaskRunReport | server/src/application/agent_report_service.cpp:218-421 | One transaction: records with QC results and alerts in order, the outcome of the run and a completed receipt, or no change at all. |
| ReportService.AgentReportService.StoreRecords | server/src/application/agent_report_service.cpp:337-397 | Records are written in request order with their ids, each followed by its QC results and the alerts they raise. |
| ReportService.AgentReportService.CheckReport | server/src/application/agent_report_service.cpp:261-334 | The refusals between claim and first write, in the order the service makes them. |
| ServerInvariant.StartKeepsServer | server/src/application/task_run_service.cpp:96-228 | A start keeps the invariant of the tables whatever it asks for; nothing disappears, and terminal runs do not change. |
| ServerAnswers.ScheduledStart | server/src/application/task_run_service.cpp:103-180 | A scheduled start: refused for the first check that fails, with nothing written; otherwise a used key is answered with its run, and an unused one with a new running run, given field by field. |
| ServerAnswers.ScheduledStartCreatesIff | server/src/application/task_run_service.cpp:103-180 | It creates a run if and only if its texts are valid, its task exists, is enabled and belongs to the node, and its key is unused. |
| ServerAnswers.ManualStart | server/src/application/task_run_service.cpp:182-228 | A manual start: refused for the first check that fails; otherwise the accepted run is answered as it is, or runs from now on if it was pending, and nothing else changes. |
| ServerInvariant.AcceptManualKeepsServer | server/src/application/task_run_service.cpp:338-424 | Accepting a manual or retry run keeps the invariant: unique keys, one pending run per task, and only for an enabled task. |
| ServerInvariant.RequestRetryKeepsServer | server/src/application/task_run_service.cpp:278-336 | So does a retry request, whose targets are the failed files of its parent. |
| ServerAnswers.ManualAccept | server/src/application/task_run_service.cpp:338-424 | A manual request: refused for the first check that fails, replayed under a used key, or a new pending run on the node of its task, given field by field. |
| ServerAnswers.RetryAccept | server/src/application/task_run_service.cpp:278-336 | A retry request: refused for the first of its eleven checks that fails, replayed under a used key, or a new pending run with exactly the targets that the failed files of its parent call for. |
| ServerAnswers.ResolvesIff | server/src/application/task_run_service.cpp:426-477 | A list of failed files resolves if and only if each names its target and refers to no archive, or to one that is recorded with path and hash for the node and the task of the parent. |
| ServerAnswers.TargetIsDetermined | server/src/application/task_run_service.cpp:426-477 | A failed file calls for one target only. |
| ServerInvariant.ResolvedTargets | server/src/application/task_run_service.cpp:426-477 | Every failed file becomes the one target it calls for: with a reference, a replay that carries path, size, hash and time of the raw file its reference names, recorded for the node and the task of the parent; without one, a bare new read of the source. |
| ServerInvariant.SetTaskEnabledKeepsServer | server/src/application/management_command_service.cpp:238-277 | Disabling leaves no pending manual run of the task behind; enabling and disabling keep the invariant. |
| ServerAnswers.Toggle | server/src/application/management_command_service.cpp:238-277 | Disabling fails exactly the pending manual runs of the task, with an empty failure list, and touches no other row; the flag is set unless the task is to be enabled and cannot be. |
| ServerInvariant.FailPendingKeepsServer | server/src/postgres/task_run_repository.cpp:284-296 | Failing the pending manual runs of a task settles all of them and touches no other run. |
| ServerInvariant.AcceptManifestKeepsServer | server/src/application/agent_report_service.cpp:162-216 | A manifest from anybody keeps the invariant: its receipt is committed complete, with exactly the raw files it answers. |
| ServerInvariant.AcceptReportKeepsServer | server/src/application/agent_report_service.cpp:218-421 | A report from anybody keeps the invariant: at most one report per run, and the records of the run are exactly those of its receipt. |
| ServerAnswers.ManifestAnswered | server/src/application/agent_report_service.cpp:162-216 | A manifest: refused for the first of its seven checks that fails, answered again with the ids of its receipt, or recorded: one raw file for each entry, in order, with what the entry says, and no others. |
| ServerAnswers.ReportAnswered | server/src/application/agent_report_service.cpp:219-421 | A report: refused for the first of its thirteen checks that fails, answered again as its receipt says, or stored: its records after those that were there, in order and field by field, its outcome in the row of its run, and its receipt. |
| ServerAnswers.FailureListIff | server/src/application/agent_report_service.cpp:455-531 | A failure list is accepted if and only if it is empty for a success, names no path twice, refers to archives of its own run or to that of the target with its path only, and in a retry names targets only, none of which has lost the archive it replays. |
| ServerInvariant.ValidFailuresKeepTargets | server/src/application/agent_report_service.cpp:497-528 | An accepted failure list has not dropped the archive reference of any archive target. |
| RetryChain.ArchiveIdentityNeverDegrades | server/src/application/task_run_service.cpp:426-477 | Along any chain of retries: once a failed file carries an archive reference, every later target of its path replays a recorded archive, with the path, size, hash and time that its reference names, never a new read of the source. |
| ReceiptIds.JoinIds | server/src/postgres/agent_report_receipt_repository.cpp:48-66 | Joins the ids by commas, and refuses exactly the lists that contain an empty or non-numeric id. |
| ReceiptIds.SplitIds | server/src/postgres/agent_report_receipt_repository.cpp:32-46 | The loop splits at every comma. |
| ReceiptIds.SplitInvertsJoin | server/src/postgres/agent_report_receipt_repository.cpp:32-66 | A stored id list reads back exactly, in order, the empty list included. |
| TaskRuns.StepKeeps | server/src/application/task_run_service.cpp:182-424 | For every interleaving of accept, retry, start, enable, disable and report transactions, statement by statement under row locks, reports of pending runs and the reads of a retry before its lock included: every step keeps the invariant of the tables and of the locks. |
| TaskRuns.StepIsSerialIff | server/src/postgres/task_run_repository.cpp:186-209 | The committed tables change, if at all, by one atomic transaction on the tables as they are, if and only if the step does not commit a report of a run that is finished already; and by an orderly one (pending, running, finished) if and only if it does not commit a report of a run that is not running. |
| TaskRuns.AnswerIsAtomicIff | server/src/application/task_run_service.cpp:278-424 | Every answer of every transaction, refusals included, is the one the whole request would get if it ran alone at the moment it ends, tables included, a retry with its parent and its failed files read anew, if and only if what it read before it had its locks was not changed against it: the key an accept or a retry did not find is still unused, or at the insert was taken by the same request; the run a report did not find finished is not finished now. |
| TaskRuns.AloneIsManual | server/src/application/task_run_service.cpp:278-331 | Whatever else commits after a retry has resolved its targets, its parent still resolves to the same ones: the whole retry executed at the insert is the acceptance of the prepared targets. |
| TaskRuns.PendingRunsAreGuarded | server/src/application/task_run_service.cpp:338-424 | In every state of every interleaving a task with a pending manual run is enabled, and has one at most. |
| TaskRuns.FinishedRowChangesIff | server/src/postgres/task_run_repository.cpp:186-209 | A finished run changes in a step if and only if the step commits a report of it with another outcome; it stays finished, and any other run moves only forward. |
| TaskRuns.TerminalIsAbsorbing | server/src/postgres/task_run_repository.cpp:186-209 | Between any two states of an interleaving a finished run stays finished, and has not changed unless a step in between rewrote it; a run that left pending never returns to it. |
| TaskRuns.ReadRunningFindsRunning | server/src/application/agent_report_service.cpp:218-263 | A report that read its run as running finds it running when it commits; one that comes too late had read it as pending, and finds it settled by a disable. |
| TaskRuns.ReadRunningKeepsOrder | server/src/application/agent_report_service.cpp:218-263 | If every report that gets as far as writing had read its run as running, every step of the interleaving is orderly and no finished run is ever rewritten. |
| TaskRuns.AcceptCommit | server/src/application/task_run_service.cpp:377-424 | What the accepting transaction commits is the atomic acceptance, although it read before it locked. |
| TaskRuns.StartCommit | server/src/application/task_run_service.cpp:208-228 | What the starting transaction commits is the atomic start of a pending run. |
| TaskRuns.ToggleCommit | server/src/application/management_command_service.cpp:238-277 | What the disabling or enabling transaction commits is the atomic one. |
| TaskRuns.ReportCommit | server/src/application/agent_report_service.cpp:218-421 | What the report transaction commits is the atomic acceptance if and only if the run is not finished at that moment, although only ownership and the status of the run were read before the claim; otherwise it had read the run as pending and overwrites what a disable settled. The tables stay in order either way. |
| TaskRuns.OverwriteIsRevivedReport | server/src/postgres/task_run_repository.cpp:186-209 | Such an overwrite leaves exactly the tables that the atomic report would leave if the disable had not touched the run. |
| TaskRuns.RacedInsertAnswer | server/src/postgres/task_run_repository.cpp:166-173 | An insert that finds its key taken changes nothing and answers with the run it found, without comparing the request; that is what the transaction alone would answer if and only if trigger, task and parent agree. |
| TaskRuns.NoWaitCycle | server/src/postgres/task_run_repository.cpp:251-304 | No cycle of transactions waits for each other, in any state whatsoever, over row locks, unique indexes and the share locks that foreign keys take on run rows, that of a retry on its parent included. |
| TaskRuns.RetryShareIsFree | deploy/schema.sql:55-55 | In every state of every interleaving a retry that inserts never waits for the share on its parent: a parent with failed files was reported, and whoever starts or retries it has the lock of its task. |
| TaskRunRaces.PendingReadCanOverwrite | server/src/postgres/task_run_repository.cpp:186-209 | For every pending run and every report acceptable for it: an interleaving in which a disable settles the run as failed and says so, and the report then replaces that outcome; no order of whole transactions does this. |
| TaskRunRaces.RacedAcceptsDisagree | server/src/postgres/task_run_repository.cpp:166-173 | For any two acceptable requests for different tasks under one unused token: an interleaving in which the second is answered with the run of the first, where it alone would be refused. |
| Cron.SplitFields | core/src/cron_schedule.cpp:19-36 | The splitting loop returns the maximal runs without white space. |
| Cron.FieldsSound | core/src/cron_schedule.cpp:19-36 | Splitting loses nothing but white space: the fields are solid and concatenate to the expression without its spaces. |
| Cron.ParseDecimal | core/src/cron_schedule.cpp:38-55 | The accumulating loop reads the number, and refuses what is not one or too large for any field. |
| Cron.ParseField | core/src/cron_schedule.cpp:76-117 | A field is accepted exactly when it is a star, a step or a number in range, and fills in exactly the values it denotes. |
| Cron.Parse | core/src/cron_schedule.cpp:76-117 | An expression is accepted exactly when it has five valid fields, and the schedule denotes them. |
| Cron.NextMinuteIsLeast | core/src/cron_schedule.cpp:66-74 | The search starts at the first minute after the time point, except exactly for times before 1970 with a fraction of a second just short of a whole minute, where it starts a minute late. |
| Cron.NextAfter | core/src/cron_schedule.cpp:132-142 | Returns the least matching minute from the start of the search, and nothing only if the window of 8 times 366 days holds none. |
| Cron.MatchesIff | core/src/cron_schedule.cpp:119-130 | A minute of a day matches if and only if the expression accepts its minute, hour, day of the month, month and weekday, each by its own field. |
| Cron.WeekdaysFollow | core/src/cron_schedule.cpp:119-130 | 1 January 1970 is a Thursday and the weekdays follow each other. |
| CronSearch.BoundIsEnough | core/src/cron_schedule.cpp:132-142 | With the day of week unrestricted the search succeeds from every time point if and only if the schedule accepts a day that exists, 29 February across a century without a leap year included. |
| CronSearch.ParsedBoundIsEnough | core/src/cron_schedule.cpp:17-142 | The same for every accepted expression whose day of week is a star. |
| CronSearch.SundayNewYearsEveIsMissed | core/src/cron_schedule.cpp:132-142 | A concrete case: after 31 December 2006, a Sunday, the next one is in 2017 and the search gives up before it. |
| CronWeekdays.BoundIsEnoughIff | core/src/cron_schedule.cpp:132-142 | For every schedule that accepts some date other than 29 February: the search succeeds from every time point if and only if the accepted dates and weekdays need two different weekdays for the first of March, or need just the one on which an accepted leap day falls too. |
| CronWeekdays.LeapDayBoundIsEnoughIff | core/src/cron_schedule.cpp:132-142 | For every schedule that accepts no date but 29 February, or none: it succeeds from every time point if and only if it accepts 29 February on Mondays, Wednesdays, Fridays and Saturdays, and also on Tuesdays or on both Sundays and Thursdays. |
| CronWeekdays.ExpressionBoundIsEnoughIff | core/src/cron_schedule.cpp:17-142 | The two together decide for every accepted expression whether its search can ever give up. |
| CronWeekdays.EveryDayOfMonthIsFound | core/src/cron_schedule.cpp:17-142 | Every accepted expression whose day of month is a star finds a slot from every time point, whatever months and weekdays it accepts. |
| CronWeekdays.TwoDaysInARow | core/src/cron_schedule.cpp:132-142 | So does a schedule that accepts two days of a month in a row on one weekday, neither of them 29 February. |
| CronWeekdays.TwoWeekdays | core/src/cron_schedule.cpp:132-142 | So does one that accepts two weekdays on some date other than 29 February. |
| Scheduler.TaskScheduler.ReplaceConfig | agent/src/scheduler/task_scheduler.cpp:121-180 | A task that stays keeps its history, and its next slot too when its execution config is the same; otherwise the next slot is computed after the last one dispatched, whatever the clock says. |
| Scheduler.TaskScheduler.CollectDue | agent/src/scheduler/task_scheduler.cpp:199-239 | One look at the clock: slots whose minute is over are skipped, due ones are marked dispatched before anything runs; dispatched slots of a task strictly increase, match their expression, and fall in their own minute; with all-digit ids they come in order of slot and id. |
| Scheduler.TaskScheduler.StillConfigured | agent/src/scheduler/task_scheduler.cpp:246-254 | An execution is run only if its task is still configured with the same execution config. |
| Scheduler.TaskScheduler.CatchUp | agent/src/scheduler/task_scheduler.cpp:262-270 | After a round each entry moves past the minutes that went by, never back over a dispatched slot. |
| Scheduler.TaskScheduler.TakeCandidate | agent/src/scheduler/task_scheduler.cpp:300-325 | Takes the first candidate whose task is configured and drops those before it. |
| Scheduler.TaskScheduler.DispatchOnePending | agent/src/scheduler/task_scheduler.cpp:300-344 | The candidate is executed without the lock; one that finds the queue full goes back to the front of the list there is then, also when the configuration was replaced in between; no slot is touched but by that. |
| Scheduler.PutBackGoesFirstOrGoes | agent/src/scheduler/task_scheduler.cpp:300-344 | An old candidate in front of a new list goes first if its task is configured still; otherwise it is dropped and the others are taken as if it were not there. |
| Scheduler.NewEntry | agent/src/scheduler/task_scheduler.cpp:126-172 | The entry of a task that stays or enters remembers exactly the history it had in the configuration. |
| Scheduler.AdvanceKeepsSlot | agent/src/scheduler/task_scheduler.cpp:206-238 | A decision is in its own minute and later than every earlier one of the task. |
| Scheduler.LookExactly | agent/src/scheduler/task_scheduler.cpp:206-238 | One look at the clock, case by case: a slot to come is left, one in this minute is dispatched, one whose minute is over is skipped; the next slot is then later than the clock. |
| Scheduler.RoundExactly | agent/src/scheduler/task_scheduler.cpp:262-270 | After a round every next slot is later than its end; a slot that came and went meanwhile is given up for the next one, any other is left. |
| Scheduler.SameExecutionIff | agent/src/scheduler/task_scheduler.cpp:35-55 | Two configurations execute the same if and only if they differ in names, profile and flag at most: a change of schedule, parser, data source or rule is noticed. |
| Scheduler.SortDue | agent/src/scheduler/task_scheduler.cpp:224-230 | Sorting permutes the due executions; the result is in order by slot and task id if and only if no three executions of one slot have ids that form a cycle, and then only if some order exists at all; with all-digit ids it always is. |
| Scheduler.NumericIdOrder | agent/src/scheduler/task_scheduler.cpp:57-81 | On all-digit ids the comparison is by value, and by spelling where leading zeros make values equal. |
| Scheduler.TaskIdLessIsTotalOnNumericIds | agent/src/scheduler/task_scheduler.cpp:57-81 | On all-digit ids the comparison is a strict total order. |
| Scheduler.TaskIdLessIsOrderIff | agent/src/scheduler/task_scheduler.cpp:57-81 | On any set of ids the comparison is a strict total order if and only if it has no two numbers, smaller one first, with an id between them that is no number and by spelling follows the second and precedes the first. |
| Scheduler.TaskIdLessCycles | agent/src/scheduler/task_scheduler.cpp:63-81 | Such ids exist: 9, 10 and 1a form a cycle. |
| Calendar.ConversionIsBijection | server/src/application/management_query_service.cpp:49-61 | Dates and day numbers correspond one to one, with 1970-01-01 at zero. |
| Calendar.DaysIncrease | server/src/application/management_query_service.cpp:49-61 | A date is before another exactly when its day number is smaller. |
| Calendar.NextDayIsSuccessor | server/src/application/management_query_service.cpp:49-61 | The day after a date has the next number, through month ends, leap days and century years. |
| Calendar.ValidatorAgreesWithParser | server/src/application/task_run_service.cpp:16-54 | The validator accepts exactly what the parser accepts on fields of digits, less year zero and days past the end of the month; what it accepts parses to the instant it names (sections 5.6 and 5.7 of RFC 3339, UTC only). |
| Calendar.ParserAcceptsSignedHour | server/src/application/management_query_service.cpp:63-100 | The parser alone also accepts a signed hour: the counterexample to full agreement. |
| Calendar.StringOrderIsTimeOrder | server/src/application/task_run_service.cpp:31-54 | For accepted timestamps the order of the strings is the order of the instants. |
| Calendar.DecimalComponent | server/src/application/task_run_service.cpp:16-25 | The loop reads the digits of a fixed field, or reports that one is missing. |
| UtcTimestamps.FormatRoundTrip | core/include/labbridge/core/utc_time.h:12-25 | Every instant in a year of four digits is printed as a timestamp that the validator accepts and the parser reads back as that instant. |
| UtcTimestamps.FormatOfSeconds | core/include/labbridge/core/utc_time.h:12-25 | Every accepted timestamp with a year from 1000 on is the one that is printed for its instant. |
| UtcTimestamps.ClockYears | core/include/labbridge/core/utc_time.h:12-25 | Every reading of a 64-bit nanosecond clock is in a year of four digits. |
| Fingerprint.ManifestFingerprintInjective | server/src/application/agent_report_service.cpp:77-92 | Two manifests have one fingerprint if and only if they are equal up to key and default ingest status. |
| Fingerprint.ReportFingerprintInjective | server/src/application/agent_report_service.cpp:94-135 | Two reports have one fingerprint if and only if they are equal up to key and default parse status; an absent failure list differs from an empty one. |
| Fingerprint.ManifestNeverCollidesWithReport | server/src/application/agent_report_service.cpp:77-135 | No manifest has the fingerprint of a report. |
| Fingerprint.EncodeInjective | server/src/application/agent_report_service.cpp:35-55 | The length-prefixed canonical string determines the list of pieces. |
| Fingerprint.ComputeManifestFingerprint | server/src/application/agent_report_service.cpp:77-92 | The appending builder yields the fingerprint of the specification. |
| Fingerprint.ComputeReportFingerprint | server/src/application/agent_report_service.cpp:94-135 | So does the one for reports, with its nested loops. |
| Csv.ParseCsvLine | agent/src/parsers/csv_parser.cpp:53-121 | The character loop with its four states computes the result of the scanning specification. |
| Csv.ParsesExactlyWhatIsWritten | agent/src/parsers/csv_parser.cpp:53-121 | A line parses to a list of fields if and only if it is one of the renderings of these fields under the quoting of section 2 of RFC 4180, restricted to one line. |
| Csv.ParseFile | agent/src/parsers/csv_parser.cpp:156-223 | A file is read exactly when it opens with a valid header and all its quoting is in order, and then gives the records and errors of its data lines. |
| Csv.LinesAreConserved | agent/src/parsers/csv_parser.cpp:179-223 | On a file that is read, every data line that is not blank gives exactly one record or exactly one error. |
| CsvRecords.LineGivesRecordIff | agent/src/parsers/csv_parser.cpp:189-216 | A data line gives a record if and only if it writes as many fields as the header has: the first three are station, device and time, and the payload is made of all others. |
| CsvRecords.LinesInOrder | agent/src/parsers/csv_parser.cpp:179-223 | The records and the errors of a file are those of its lines, each once and in order. |
| CsvRecords.LineEndings | agent/src/parsers/csv_parser.cpp:139-188 | A carriage return at the end of a line is no part of it, nor is a byte order mark before the header. |
| CsvRecords.PayloadTellsFields | agent/src/parsers/csv_parser.cpp:23-38 | Under one header the payloads of two lines are equal if and only if their fields from the fourth on are: escaping loses nothing. |
| Csv.RecordTimeMayBeEmpty | agent/src/parsers/csv_parser.cpp:209-214 | A line with an empty third field gives a record without a time. |
| Csv.IsValidHeader | agent/src/parsers/csv_parser.cpp:123-137 | The header check accepts exactly the headers of the specification. |
| Codec.TaskConfigRoundTrip | agent/src/execution/execution_request_codec.cpp:248-303 | A persisted task config reads back as it was if its required texts are present, and is refused otherwise. |
| Codec.StartRoundTrip | agent/src/execution/execution_request_codec.cpp:305-336 | The same for a start request of any trigger. |
| Codec.ManifestRoundTrip | agent/src/execution/execution_request_codec.cpp:338-373 | The same for a manifest, entry by entry. |
| Codec.ReportRoundTrip | agent/src/execution/execution_request_codec.cpp:375-454 | The same for a report: it reads back exactly, its absent or present failure list included, if and only if no required text is empty and no count out of range, in particular if no record lacks its time. |
| Codec.RecordWithoutTimeIsLost | agent/src/execution/execution_request_codec.cpp:219-234 | A concrete report whose record has no time: it is encoded and can never be decoded again. |
| Codec.RetryFilesRoundTrip | agent/src/execution/execution_request_codec.cpp:456-513 | The same for the fixed retry targets of a job. |
| Codec.EncodeTaskRunReport | agent/src/execution/execution_request_codec.cpp:380-416 | The nested encoding loops build the tree of the specification. |
| Codec.DecodeManifestRequest | agent/src/execution/execution_request_codec.cpp:359-373 | The decoding loop reads the tree of the specification, or refuses. |
| Archive.ArchiveFile | agent/src/execution/local_archive_store.cpp:163-210 | Whatever fails and whenever the power goes, the archive name never comes to stand for anything but the verified bytes; on success the bytes and every directory entry that leads to them are on stable storage; and no other file on stable storage is lost or changed, but for temporary names of this one. Unless an operation fails or the archive is there already, it succeeds exactly if the ids can stand in a path, nothing stands in the way and the input is still what was recorded. |
| Archive.RecoverArchive | agent/src/execution/local_archive_store.cpp:211-242 | Recovery of a planned path from any state of the file system: it reports a conflict if and only if other content is there; on success, whether the archive was there, stable or not, or was archived again to the same path, its bytes and the way to them are on stable storage; and what was safe before stays safe at every moment, as does every other file on stable storage but for temporary names of this one. Unless an operation fails, it succeeds when the right content is there, and when nothing is there exactly if nothing stands in the way and the input is still what was recorded. |
| Archive.PowerLossIsRecoverable | agent/src/execution/local_archive_store.cpp:163-242 | What a power loss leaves of any safe moment is a state that recovery can begin from, with no other content under the archive name. |
| Archive.ArchiveThroughPowerLoss | agent/src/execution/local_archive_store.cpp:163-210 | Whenever the power goes while a file is archived, at whatever moment of the history, recovery can begin from what is left and finds no other content. |
| Archive.RecoverAfterPowerLoss | agent/src/execution/local_archive_store.cpp:163-242 | An attempt to archive that stops anywhere, a power loss, and recovery by a new process with faults of its own: never a conflict, and on success the bytes are stored; a first attempt that succeeded has left its archive. |
| Archive.CopyFile | agent/src/execution/local_archive_store.cpp:181-196 | The copy is written byte by byte under a temporary name, with a crash possible between any two bytes. |
| Archive.Publish | agent/src/execution/local_archive_store.cpp:198-202 | Content is synchronized before it gets its final name, and the name and its directories are made stable before success is reported. |
| Archive.SyncDirectoryChain | agent/src/execution/local_archive_store.cpp:110-119 | On success every directory entry from the archive up to the root is stable. |
| Archive.StoredSurvivesPowerLoss | agent/src/execution/local_archive_store.cpp:163-209 | An archive on stable storage is there after a power loss, name and bytes, whatever the kernel wrote back in between. |
| Archive.PowerLossKeepsSafe | agent/src/execution/local_archive_store.cpp:163-209 | A power loss at any safe moment leaves no archive name without its full bytes. |
| ArchiveDurability.ManifestsAreDurable | agent/src/execution/task_executor.cpp:455-494 | In every run of the system on a file system that may lose power at any moment, as long as no slot is dispatched twice: at every moment every file a job has archived, and every file that any manifest ever sent lists, is on stable storage under its planned path, with every directory that leads to it and with the bytes of the size and hash that were sent. |
| ArchiveDurability.ArchiveAtHand | agent/src/execution/task_executor.cpp:468-487 | What such a run demands of the disk while a file is archived is what recovery of the planned path does: at every moment what is stored elsewhere stays stored, and when it succeeds the bytes of the file are stored. |
| ArchiveDurability.OtherStepsArchiveNothing | agent/src/storage/agent_queue_store.cpp:980-997 | In a reachable state no step marks a file as archived but the one that follows a successful archiving. |
| ArchiveDurability.PassArchivesOne | agent/src/storage/agent_queue_store.cpp:980-997 | And that one marks exactly the file at hand. |
| ArchiveDurability.AvoidsElsewhere | agent/src/execution/local_archive_store.cpp:163-196 | The temporary names under which a file is archived are no path, and no directory of a path, that is planned for another run or another ordinal. |
| ArchivePaths.PlannedPathsDistinct | agent/src/execution/local_archive_store.cpp:243-256 | Distinct task, run and ordinal never share an archive path. |
| ArchivePaths.RecoveryRecomputesPath | agent/src/execution/local_archive_store.cpp:211-241 | Recovery recomputes task, run and ordinal from a planned path, and with them exactly that path. |
| ArchivePaths.SanitizedFilename | agent/src/execution/local_archive_store.cpp:42-61 | The character loop computes the sanitized name of the specification. |
| ArchivePaths.SanitizedIsSafeSegment | agent/src/execution/local_archive_store.cpp:42-61 | A sanitized name is one safe path segment, whatever the original name was. |
| ArchivePaths.SanitizedKeepsSafe | agent/src/execution/local_archive_store.cpp:42-57 | Safe characters are kept in place, each other one becomes an underscore, and only an empty name or a relative directory is replaced. |
| Paging.TrimPage | server/src/application/management_query_service.cpp:31-46 | A page has more exactly when one row more than the limit was fetched, and its cursor is then its last id. |
| Paging.NextPage | server/src/postgres/management_query_repository.cpp:16-37 | The page after the first rows of a list is the next stretch of that list, whatever larger ids have been inserted since. |
| Paging.PaginationIsComplete | server/src/application/management_query_service.cpp:31-46 | Following the cursors ends within one page per row and one more, and yields exactly the rows present at the start, each once, in descending id. |
| Paging.ShowsPagesOfOneRefresh | web-console/src/composables/usePagedList.ts:20-116 | Under every order of refreshes, further pages, aborts, failures, late answers and inserts, the items shown are a prefix of the list of one refresh, and all of it once there is no further page. |
| Paging.AnsweredKeeps | web-console/src/composables/usePagedList.ts:45-94 | Showing an answer, or dropping a stale one, keeps the shown items consecutive. |
| Paging.AnswerShows | web-console/src/composables/usePagedList.ts:20-90 | What an answer shows: of a refresh the first page of the list as it was then, of a further page the items shown and up to that many more of the same list, of a request that is not current nothing; there is a further page exactly when something is left. |
| Paging.PagedList.BeginRequest | web-console/src/composables/usePagedList.ts:31-39 | Opens a new generation with no current request; nothing shown changes. |
| Paging.PagedList.Refresh | web-console/src/composables/usePagedList.ts:45-66 | Sends one refresh of a new generation. |
| Paging.PagedList.LoadMore | web-console/src/composables/usePagedList.ts:68-94 | Does nothing exactly when a request is under way or there is no further page; otherwise asks for the page after the shown items. |
| Paging.PagedList.Abort | web-console/src/composables/usePagedList.ts:96-103 | Abandons the current request; its answer will not be shown. |
| Paging.PagedList.Receive | web-console/src/composables/usePagedList.ts:45-94 | Only the answer to the current request is shown. |
| Paging.PagedList.Fail | web-console/src/composables/usePagedList.ts:56-65 | A failure is shown only if it is of the current request and not a cancellation. |
| Messages.DerivedKeysIdentifyRun | agent/src/execution/task_execution_client.cpp:45-53 | For one node a derived idempotency key determines its run. |
| Keys.DerivedKeysTell | agent/src/execution/task_execution_client.cpp:43-53 | A derived key tells the kind of the request, the node and the run, when node codes are one line. |
| Keys.SlotKeysTell | agent/src/execution/task_execution_client.cpp:35-43 | The key of a slot tells the node, the task and the slot. |
| Messages.ScheduledKeyIsNotOperatorKey | agent/src/execution/task_execution_client.cpp:32-43 | A scheduled key is never an operator key. |

## Left out

- HTTP controllers, the socket client, SQL text, pragmas, schema migration and column mapping: a request is a value, a
  statement its effect on a map.
- Authentication, configuration files, logging, node heartbeats, the queue lock file, signals and thread joining.
- QC rules and alert disposition: a rule's verdict is a parameter, and of QC results and alerts only the ids are kept.
- Creation of data sources, rules and tasks; the Vue views; scripts.
- Legacy rows: jobs without a failure marker or resume stage are outside the job invariant, though the repair branches
  are modelled; starts without an execution key are not modelled.
- The limit of 128 characters on keys, the check that an id is a positive integer, and 32-bit counters: an id that names
  no task is refused as not found, and item counts are unbounded.
- ControlPlane.StartScheduled: looks an execution key up over all nodes, while the source's unique index is per node; the
  two agree because a scheduled key is a digest of a text that holds the node code, and operator keys are looked up over
  all nodes in the source too.
- Protocol.Behaviour: the runs of the system have one Agent; traffic of other nodes is covered by the lemmas of
  `ServerInvariant`, which hold for any request, and of `TaskRuns`, which hold for any request of the kinds it cuts into steps.
- QueueStore.AgentQueueStore: files and deliveries are nested in their job row, and requests are kept as values and not
  as JSON text; `Codec` says exactly which values survive the text.
- Codec: JSON is a tree; printing, parsing and the escaping of invalid UTF-8 are not modelled.
- TaskRuns.StepKeeps: the insert of a scheduled run is not cut into steps. Of the share locks of foreign keys those on run
  rows are modelled, that of a retry on its parent included; those on the rows of nodes, which no modelled transaction locks
  for update, are not.
- Scheduler.TaskScheduler: waiting, waking and stopping are not modelled, and executions are recorded and not run. Of what
  may happen while the lock is released, only a change of the configuration during the execution of a candidate is.
- ArchiveDurability.ManifestsAreDurable: is about the files that are archived; the database of the queue is durable by the
  premise that its transactions are.
- Calendar: gmtime is the date of a day number, and fractions of a second are not part of timestamps.
- UtcTimestamps.Format: demands a year of four digits, which `UtcTimestamps.ClockYears` shows of every clock reading.
- Paging.PaginationIsComplete: rows are only inserted, with larger ids; deleting rows or changing filters while paging is
  not modelled.
