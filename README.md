# Kettle project executors, modelled in Dafny

This project models the two services of the data-integration run service that execute
Kettle projects (transformations).

- `ProjectExecutorService` is the interactive executor.
  - One execution per user and project. The guard is the field `projectId` in the Redis hash
    `di_executor_<userId>`.
  - A poll loop sends progress messages over a websocket callback. Each message carries the
    steps' statuses, the errors and the log.
  - Each finished step's preview rows are handed out once.
  - `pauseResume` and `stop` act on the engine registered in the in-process `executorMap`.
  - A `finally` block always cleans up.
- `ProjectScheduleExecutorService` is the scheduled (REST) executor.
  - One execution per project. The guard is the value `di_re_<projectId>`, holding the executor
    id. The owning instance is recorded under `instanceId_<projectId>`.
  - A liveness timestamp lives in field `projectId` of the hash `di_schedule_exec_heartbeat`.
    The poll loop refreshes it at most once per `heartbeatInterval` seconds. `checkExists`
    compares it with `heartbeatTimeout`.
  - A run with errors is reported on the callback and the exception is rethrown to the caller.

The services are classes. Their fields are the state each service touches:

- the Redis store: string values and hashes;
- the history mapper's calls, as an append-only log; replaying the log gives the table;
- the staged files;
- the executor map.

The engine handle `TransExecutor` is a class whose fields the executors change: pause, stop,
the preview buffer.

What the outside world does is given to each operation as input:

- what the JSON-to-XML conversion and the XML load yield;
- whether `start` throws;
- the engine's progress and the clock at each sleep of the poll loop, as a sequence of ticks;
- the ids and clock readings the source draws.

Each poll loop is a method whose `ensures` ties it to a recursive function (`PollLoop`). The
lemmas about those functions state what the loops promise: one final message, stop observed at
the next poll, heartbeats throttled and kept fresh, each preview delivered once. The
`executeByFile` methods state the whole effect of a run on every path out of its
`try`/`catch`/`finally`: the registry is restored, the guard is released, the staged file is
deleted when `deleteTmpFile` is set and otherwise keeps the XML staged for the run, the history row is written exactly twice, and the messages sent are as `Reported`
defines them. The Redis writes and the history insert made before the `try` are taken never to
throw, and the file system never to fail (see "## Left out").

Java's `long` and `int` arithmetic is written out in `JavaLang`: wrap-around, division that
rounds toward zero, narrowing casts, and decimal text.

Places where the code does something other than what its names and structure suggest; the
model follows the code:

- A scheduled run whose transformation counted errors throws from `execute` (line 348-352 of
  `ProjectScheduleExecutorService.java`). So `executor` stays null in `finally`, and the
  history row ends END even when the run was stopped.
- The scheduled failure notice (lines 210-213) is a success envelope whose `transFinished` is
  never set, so it reads as false (taking the field to be a primitive `boolean`). A failed
  scheduled run therefore never sends a message saying the run is over.
- The scheduled `finally` block deletes the guard and the heartbeat but never the
  `instanceId_<projectId>` key.
- The scheduled `checkExists` refuses a stale heartbeat and admits a fresh one. See
  "## Findings".

## Model

| member | source | states |
|---|---|---|
| JavaLang.LongSub | dataintegration-run/dataintegration-run-management-provider/src/main/java/com/youngdatafan/di/run/management/server/service/ProjectExecutorService.java:290 | `now - start` on `long`s: the exact difference when it fits in 64 bits, and always congruent to it modulo 2^64 (wrap-around) |
| JavaLang.MillisToSeconds | dataintegration-run/dataintegration-run-management-provider/src/main/java/com/youngdatafan/di/run/management/server/service/ProjectExecutorService.java:290 | `/ 1000` on a `long` rounds toward zero: for a non-negative operand `s*1000 <= ms < s*1000+1000`, for a negative one `ms <= s*1000 < ms+1000` |
| JavaLang.ToInt | dataintegration-run/dataintegration-run-management-provider/src/main/java/com/youngdatafan/di/run/management/server/service/ProjectExecutorService.java:290 | the `(int)` cast keeps the value when it fits in 32 bits and is always congruent to it modulo 2^32 |
| JavaLang.ShowLong | dataintegration-run/dataintegration-run-management-provider/src/main/java/com/youngdatafan/di/run/management/server/service/ProjectScheduleExecutorService.java:195 | `String.valueOf(long)` is non-empty, starts with `-` exactly for a negative value, never with `+` |
| JavaLang.ParseLong | dataintegration-run/dataintegration-run-management-provider/src/main/java/com/youngdatafan/di/run/management/server/service/ProjectScheduleExecutorService.java:170 | `Long.parseLong` succeeds only on non-empty text, and a negative result comes from text starting with `-` |
| JavaLang.ParseShowLong | dataintegration-run/dataintegration-run-management-provider/src/main/java/com/youngdatafan/di/run/management/server/service/ProjectScheduleExecutorService.java:169-170 | a heartbeat written with `String.valueOf` parses back with `Long.parseLong` to the same value |
| Dto.FailureLog | dataintegration-run/dataintegration-run-management-provider/src/main/java/com/youngdatafan/di/run/management/server/service/ProjectScheduleExecutorService.java:213 | the log of a caught exception is the failure header, a newline, then the exception's message |
| Redis.HGet | dataintegration-run/dataintegration-run-management-provider/src/main/java/com/youngdatafan/di/run/management/server/service/ProjectExecutorService.java:155 | a hash field reads as present exactly when the field exists |
| Redis.HPutAll | dataintegration-run/dataintegration-run-management-provider/src/main/java/com/youngdatafan/di/run/management/server/service/ProjectExecutorService.java:272 | `putAll` writes every given field, keeps the hash's other fields, and leaves other keys and string values alone |
| Redis.HPut | dataintegration-run/dataintegration-run-management-provider/src/main/java/com/youngdatafan/di/run/management/server/service/ProjectScheduleExecutorService.java:325 | a single-field put stores the value and changes no other field, hash or string value |
| Redis.HDel | dataintegration-run/dataintegration-run-management-provider/src/main/java/com/youngdatafan/di/run/management/server/service/ProjectExecutorService.java:235 | after the hash delete the field is absent, and every other field, hash and string value is unchanged |
| Redis.Get | dataintegration-run/dataintegration-run-management-provider/src/main/java/com/youngdatafan/di/run/management/server/service/ProjectScheduleExecutorService.java:135 | a string key reads as present exactly when it holds a value |
| Redis.Set | dataintegration-run/dataintegration-run-management-provider/src/main/java/com/youngdatafan/di/run/management/server/service/ProjectScheduleExecutorService.java:191 | after the set the key holds the value, other keys are unchanged and hashes untouched |
| Redis.Del | dataintegration-run/dataintegration-run-management-provider/src/main/java/com/youngdatafan/di/run/management/server/service/ProjectScheduleExecutorService.java:142 | deleted keys hold neither a value nor a hash; all other keys are unchanged |
| History.StartRow | dataintegration-run/dataintegration-run-management-provider/src/main/java/com/youngdatafan/di/run/management/server/service/ProjectExecutorService.java:294-306 | the inserted row has the run's id and environment, status RUNNING, the start time, and no end time or duration |
| History.TerminalStatus | dataintegration-run/dataintegration-run-management-provider/src/main/java/com/youngdatafan/di/run/management/server/service/ProjectExecutorService.java:284-288 | the final status is never RUNNING, and is TERMINATIN exactly when `execute` returned an executor whose transformation is stopped |
| History.ExecSecond | dataintegration-run/dataintegration-run-management-provider/src/main/java/com/youngdatafan/di/run/management/server/service/ProjectExecutorService.java:290 | for a forward clock step below 2^31 seconds, the duration written is the whole seconds elapsed, rounded down |
| History.Finish | dataintegration-run/dataintegration-run-management-provider/src/main/java/com/youngdatafan/di/run/management/server/service/ProjectExecutorService.java:280-292 | the one update is a selective update of the run's row, to a non-RUNNING status |
| History.RunRecord | dataintegration-run/dataintegration-run-management-provider/src/main/java/com/youngdatafan/di/run/management/server/service/ProjectExecutorService.java:280-306 | the row inserted under a fresh id reads RUNNING; after its single update it holds the terminal status, end time and duration; no other row changes |
| Engine.Advance | dataintegration-run/dataintegration-run-management-provider/src/main/java/com/youngdatafan/di/run/management/server/service/ProjectExecutorService.java:345-350 | while the executor sleeps, the finished flag and the stopped flag each stay set once set, errors and the log only grow, and the transformation and pause flag stay |
| Engine.TransExecutor.constructor | dataintegration-run/dataintegration-run-management-provider/src/main/java/com/youngdatafan/di/run/management/server/service/ProjectExecutorService.java:475-479 | the handle starts in the state `start` leaves it in |
| Engine.TransExecutor.PauseResume | dataintegration-run/dataintegration-run-management-provider/src/main/java/com/youngdatafan/di/run/management/server/service/ProjectExecutorService.java:118 | `pauseResume()` flips the pausing flag and changes nothing else |
| Engine.TransExecutor.Stop | dataintegration-run/dataintegration-run-management-provider/src/main/java/com/youngdatafan/di/run/management/server/service/ProjectExecutorService.java:142 | `stop()` sets the stopped flag and changes nothing else |
| Engine.TransExecutor.RemovePreview | dataintegration-run/dataintegration-run-management-provider/src/main/java/com/youngdatafan/di/run/management/server/service/ProjectExecutorService.java:405 | `transPreview.remove` drops that step's buffered preview and changes nothing else |
| Engine.TransExecutor.Run | dataintegration-run/dataintegration-run-management-provider/src/main/java/com/youngdatafan/di/run/management/server/service/ProjectExecutorService.java:345-350 | the engine's progress during one sleep is `Advance` of its state |
| Engine.UnregisterRestores | dataintegration-run/dataintegration-run-management-provider/src/main/java/com/youngdatafan/di/run/management/server/service/ProjectExecutorService.java:224 | removing the fresh executor id in `finally` gives back the registry the run started with, whether or not the handle was registered |
| Staging.TmpPath | dataintegration-run/dataintegration-run-management-provider/src/main/java/com/youngdatafan/di/run/management/server/service/ProjectExecutorService.java:508 | the staged file lies in the temporary folder and is named by the executor id followed by the suffix |
| Staging.TmpPathInjective | dataintegration-run/dataintegration-run-management-provider/src/main/java/com/youngdatafan/di/run/management/server/service/ProjectExecutorService.java:508 | two executions with different ids never share a staged file |
| Staging.StagedText | dataintegration-run/dataintegration-run-management-provider/src/main/java/com/youngdatafan/di/run/management/server/service/ProjectExecutorService.java:499-503 | the staged text starts with `<?xml`: the project file unchanged when it already does, otherwise the XML declaration followed by the converted document |
| Staging.PhaseOf | dataintegration-run/dataintegration-run-management-provider/src/main/java/com/youngdatafan/di/run/management/server/service/ProjectExecutorService.java:450-486 | the engine starts exactly when staging and loading succeed and `start` does not throw; `start` failing is told apart from a build failure; an XML project file can fail only in its load |
| Staging.StageOutcome | dataintegration-run/dataintegration-run-management-provider/src/main/java/com/youngdatafan/di/run/management/server/service/ProjectExecutorService.java:496-509 | staging succeeds with XML text; a project file that is already XML is staged as is whatever the converter would do |
| StepReport.StepDtoWith | dataintegration-run/dataintegration-run-management-provider/src/main/java/com/youngdatafan/di/run/management/server/service/ProjectExecutorService.java:408-424 | the record carries the step's name, status and the preview data fetched for it; `linesWritten` is never set |
| StepReport.PreviewData | dataintegration-run/dataintegration-run-management-provider/src/main/java/com/youngdatafan/di/run/management/server/service/ProjectExecutorService.java:402 | preview rows are returned exactly when the buffer holds that step name |
| StepReport.PreviewFieldNames | dataintegration-run/dataintegration-run-management-provider/src/main/java/com/youngdatafan/di/run/management/server/service/ProjectExecutorService.java:403 | preview field names are returned exactly when the buffer holds that step name |
| StepReport.InteractiveDto | dataintegration-run/dataintegration-run-management-provider/src/main/java/com/youngdatafan/di/run/management/server/service/ProjectExecutorService.java:401-424 | a step's record has a preview exactly when the step is FINISHED and its name is buffered, and then it is the buffered rows and field names |
| StepReport.Interactive | dataintegration-run/dataintegration-run-management-provider/src/main/java/com/youngdatafan/di/run/management/server/service/ProjectExecutorService.java:379-430 | one record per step |
| StepReport.InteractiveReports | dataintegration-run/dataintegration-run-management-provider/src/main/java/com/youngdatafan/di/run/management/server/service/ProjectExecutorService.java:390-427 | record i has step i's name and status, and carries a preview only for a FINISHED step whose name was buffered |
| StepReport.InteractiveRest | dataintegration-run/dataintegration-run-management-provider/src/main/java/com/youngdatafan/di/run/management/server/service/ProjectExecutorService.java:401-406 | the buffer left behind is the old one minus the names of the finished steps, with the remaining entries unchanged |
| StepReport.PreviewDeliveredOnce | dataintegration-run/dataintegration-run-management-provider/src/main/java/com/youngdatafan/di/run/management/server/service/ProjectExecutorService.java:401-406 | once a FINISHED step's preview has been reported, no later report carries a preview under that name unless the engine buffered a new one |
| StepReport.FirstFinishedGetsPreview | dataintegration-run/dataintegration-run-management-provider/src/main/java/com/youngdatafan/di/run/management/server/service/ProjectExecutorService.java:401-405 | the first FINISHED step of a buffered name receives exactly the buffered rows |
| StepReport.PlainDto | dataintegration-run/dataintegration-run-management-provider/src/main/java/com/youngdatafan/di/run/management/server/service/ProjectScheduleExecutorService.java:373-385 | the scheduled record carries the step's name and status and never a preview |
| StepReport.Plain | dataintegration-run/dataintegration-run-management-provider/src/main/java/com/youngdatafan/di/run/management/server/service/ProjectScheduleExecutorService.java:362-390 | the scheduled report has one preview-free record per step, in step order |
| RunningProjects.InsertByStart | dataintegration-run/dataintegration-run-management-provider/src/main/java/com/youngdatafan/di/run/management/server/service/ProjectExecutorService.java:558 | inserting adds exactly that element to the list's multiset |
| RunningProjects.InsertByStartBounded | dataintegration-run/dataintegration-run-management-provider/src/main/java/com/youngdatafan/di/run/management/server/service/ProjectExecutorService.java:558 | inserting a request that started no later than `t` into a list whose start times are all at most `t` keeps every start time at most `t` |
| RunningProjects.InsertByStartSorted | dataintegration-run/dataintegration-run-management-provider/src/main/java/com/youngdatafan/di/run/management/server/service/ProjectExecutorService.java:558 | insertion keeps the list ordered latest start first |
| RunningProjects.SortByStartDesc | dataintegration-run/dataintegration-run-management-provider/src/main/java/com/youngdatafan/di/run/management/server/service/ProjectExecutorService.java:558 | the result is ordered latest start first and is a permutation of the input |
| ProjectExecutor.UserKey | dataintegration-run/dataintegration-run-management-provider/src/main/java/com/youngdatafan/di/run/management/server/service/ProjectExecutorService.java:154 | a user's hash key is `di_executor_` followed by the user id |
| ProjectExecutor.ClaimFields | dataintegration-run/dataintegration-run-management-provider/src/main/java/com/youngdatafan/di/run/management/server/service/ProjectExecutorService.java:269-271 | the claim writes exactly two fields, the request's JSON under the project id and this instance's id under `instanceId` |
| ProjectExecutor.ClaimRelease | dataintegration-run/dataintegration-run-management-provider/src/main/java/com/youngdatafan/di/run/management/server/service/ProjectExecutorService.java:193-240 | after one run claims and releases, the project field is gone, `instanceId` names this instance, and all other fields and hashes are as before |
| ProjectExecutor.CheckThenClaimRace | dataintegration-run/dataintegration-run-management-provider/src/main/java/com/youngdatafan/di/run/management/server/service/ProjectExecutorService.java:153-158 | two submissions that both pass the check before either claims: the later claim wins, and the first run's release removes the guard the second still relies on |
| ProjectExecutor.Progress | dataintegration-run/dataintegration-run-management-provider/src/main/java/com/youngdatafan/di/run/management/server/service/ProjectExecutorService.java:334-340 | a progress message is a success on `/runningState` carrying the steps, the engine's log, and the final flag only when it is the last message |
| ProjectExecutor.ErrorReport | dataintegration-run/dataintegration-run-management-provider/src/main/java/com/youngdatafan/di/run/management/server/service/ProjectExecutorService.java:245-252 | `responseError` sends a CODE_10010 failure on `/runningState` that says the run is over and carries the given log and steps |
| ProjectExecutor.PollLoop | dataintegration-run/dataintegration-run-management-provider/src/main/java/com/youngdatafan/di/run/management/server/service/ProjectExecutorService.java:329-351 | the loop sends nothing and changes nothing when the engine is already finished or stopped; it keeps the transformation, and a stopped engine stays stopped |
| ProjectExecutor.PollLoopShape | dataintegration-run/dataintegration-run-management-provider/src/main/java/com/youngdatafan/di/run/management/server/service/ProjectExecutorService.java:329-351 | on a live engine the loop sends between 1 and one-per-tick-plus-one messages, none final, all on `/runningState` |
| ProjectExecutor.Run | dataintegration-run/dataintegration-run-management-provider/src/main/java/com/youngdatafan/di/run/management/server/service/ProjectExecutorService.java:316-371 | `execute` after a successful start keeps the engine's transformation |
| ProjectExecutor.RunShape | dataintegration-run/dataintegration-run-management-provider/src/main/java/com/youngdatafan/di/run/management/server/service/ProjectExecutorService.java:329-366 | `execute` sends at least one message; the last says the run is over and no earlier one does; a run that is already over sends only the final message |
| ProjectExecutor.Reported | dataintegration-run/dataintegration-run-management-provider/src/main/java/com/youngdatafan/di/run/management/server/service/ProjectExecutorService.java:206-221 | a run whose build or start fails sends exactly one message, a CODE_10010 failure |
| ProjectExecutor.ReportedShape | dataintegration-run/dataintegration-run-management-provider/src/main/java/com/youngdatafan/di/run/management/server/service/ProjectExecutorService.java:206-221 | however the run goes, the last message and only it says the run is over, and all go to `/runningState` |
| ProjectExecutor.StopObservedNextPoll | dataintegration-run/dataintegration-run-management-provider/src/main/java/com/youngdatafan/di/run/management/server/service/ProjectExecutorService.java:329-350 | a stop requested during the j-th sleep ends the loop at the next poll, with the transformation stopped, after exactly j+1 progress messages |
| ProjectExecutor.ProjectExecutorService.constructor | dataintegration-run/dataintegration-run-management-provider/src/main/java/com/youngdatafan/di/run/management/server/service/ProjectExecutorService.java:101-105 | the service starts with an empty executor map over the given Redis store, history and files |
| ProjectExecutor.ProjectExecutorService.PauseResume | dataintegration-run/dataintegration-run-management-provider/src/main/java/com/youngdatafan/di/run/management/server/service/ProjectExecutorService.java:113-127 | an unregistered id answers false and changes nothing; a registered engine's pausing flag flips and is the answer |
| ProjectExecutor.ProjectExecutorService.Stop | dataintegration-run/dataintegration-run-management-provider/src/main/java/com/youngdatafan/di/run/management/server/service/ProjectExecutorService.java:134-145 | the answer is true exactly when the id is registered, and then that engine, and only its stopped flag, is set |
| ProjectExecutor.ProjectExecutorService.CheckExists | dataintegration-run/dataintegration-run-management-provider/src/main/java/com/youngdatafan/di/run/management/server/service/ProjectExecutorService.java:153-158 | CODE_10010 exactly when the user's hash has the project's field, normal return exactly when it does not |
| ProjectExecutor.ProjectExecutorService.StopByUser | dataintegration-run/dataintegration-run-management-provider/src/main/java/com/youngdatafan/di/run/management/server/service/ProjectExecutorService.java:166-172 | the project's field is always deleted from the user's hash, then the engine is stopped by executor id as in `Stop` |
| ProjectExecutor.ProjectExecutorService.ExecutorIsExists | dataintegration-run/dataintegration-run-management-provider/src/main/java/com/youngdatafan/di/run/management/server/service/ProjectExecutorService.java:529-531 | true exactly when the executor id is registered |
| ProjectExecutor.ProjectExecutorService.SaveUserExecuteProject | dataintegration-run/dataintegration-run-management-provider/src/main/java/com/youngdatafan/di/run/management/server/service/ProjectExecutorService.java:264-278 | writes the claim fields into the user's hash without looking first; the project field and `instanceId` are then present |
| ProjectExecutor.ProjectExecutorService.SaveExecuteHistory | dataintegration-run/dataintegration-run-management-provider/src/main/java/com/youngdatafan/di/run/management/server/service/ProjectExecutorService.java:294-306 | appends the insert of a RUNNING JCPT row |
| ProjectExecutor.ProjectExecutorService.UpdateHistoryStatus | dataintegration-run/dataintegration-run-management-provider/src/main/java/com/youngdatafan/di/run/management/server/service/ProjectExecutorService.java:280-292 | appends the single terminal update, TERMINATIN exactly for a returned and stopped executor |
| ProjectExecutor.ProjectExecutorService.ResponseError | dataintegration-run/dataintegration-run-management-provider/src/main/java/com/youngdatafan/di/run/management/server/service/ProjectExecutorService.java:242-262 | sends the failure report, unregisters the executor id, and stops its engine when one was registered |
| ProjectExecutor.ProjectExecutorService.BuildStepStatus | dataintegration-run/dataintegration-run-management-provider/src/main/java/com/youngdatafan/di/run/management/server/service/ProjectExecutorService.java:379-430 | null without an engine or transformation; otherwise the `Interactive` reports, with exactly the reported finished steps' previews removed from the buffer |
| ProjectExecutor.ProjectExecutorService.BuildTransMeta | dataintegration-run/dataintegration-run-management-provider/src/main/java/com/youngdatafan/di/run/management/server/service/ProjectExecutorService.java:496-527 | a failed conversion throws before anything is written; otherwise the staged text is written at the execution's path, and a failed XML load then throws |
| ProjectExecutor.ProjectExecutorService.Poll | dataintegration-run/dataintegration-run-management-provider/src/main/java/com/youngdatafan/di/run/management/server/service/ProjectExecutorService.java:329-351 | the messages sent and the engine's final state are those of `PollLoop` |
| ProjectExecutor.ProjectExecutorService.Execute | dataintegration-run/dataintegration-run-management-provider/src/main/java/com/youngdatafan/di/run/management/server/service/ProjectExecutorService.java:316-371 | registers the engine under its id; messages and final engine state are those of `Run` |
| ProjectExecutor.ProjectExecutorService.Attempt | dataintegration-run/dataintegration-run-management-provider/src/main/java/com/youngdatafan/di/run/management/server/service/ProjectExecutorService.java:206-221 | the messages are `Reported`; the handle is registered and returned exactly when the engine started; only the staged file may change on disk, and it holds what `buildTransMeta` staged: the XML text once staging succeeded, nothing new when the conversion threw |
| ProjectExecutor.ProjectExecutorService.Finally | dataintegration-run/dataintegration-run-management-provider/src/main/java/com/youngdatafan/di/run/management/server/service/ProjectExecutorService.java:222-239 | unregisters the id, deletes the staged file when `deleteTmpFile` and leaves every file as it was otherwise, deletes the project field and appends the terminal history update |
| ProjectExecutor.ProjectExecutorService.ExecuteByFile | dataintegration-run/dataintegration-run-management-provider/src/main/java/com/youngdatafan/di/run/management/server/service/ProjectExecutorService.java:193-240 | on every path the registry is restored, the guard field is gone, the staged file is deleted when configured and otherwise holds the staged XML, the history gets one RUNNING insert and one terminal update, and the messages are `Reported` |
| ProjectExecutor.ProjectExecutorService.SelectRunningProject | dataintegration-run/dataintegration-run-management-provider/src/main/java/com/youngdatafan/di/run/management/server/service/ProjectExecutorService.java:539-561 | the result is the parsable requests of the user's hash, `instanceId` excluded and each field visited once, ordered latest start first |
| ProjectScheduleExecutor.GuardKey | dataintegration-run/dataintegration-run-management-provider/src/main/java/com/youngdatafan/di/run/management/server/service/ProjectScheduleExecutorService.java:134 | a project's guard key is `di_re_` followed by the project id |
| ProjectScheduleExecutor.InstanceKey | dataintegration-run/dataintegration-run-management-provider/src/main/java/com/youngdatafan/di/run/management/server/service/ProjectScheduleExecutorService.java:193 | a project's instance key is `instanceId_` followed by the project id |
| ProjectScheduleExecutor.KeysDistinct | dataintegration-run/dataintegration-run-management-provider/src/main/java/com/youngdatafan/di/run/management/server/service/ProjectScheduleExecutorService.java:63-70 | guard keys, instance keys and the heartbeat hash never collide, and different projects have different guard keys |
| ProjectScheduleExecutor.ElapsedSeconds | dataintegration-run/dataintegration-run-management-provider/src/main/java/com/youngdatafan/di/run/management/server/service/ProjectScheduleExecutorService.java:170 | for a forward clock step, the whole seconds elapsed, truncated: n·1000 ≤ elapsed ms < n·1000 + 1000; never positive for a backward step |
| ProjectScheduleExecutor.ElapsedAtLeast | dataintegration-run/dataintegration-run-management-provider/src/main/java/com/youngdatafan/di/run/management/server/service/ProjectScheduleExecutorService.java:170 | for a forward clock step, at least n whole elapsed seconds means at least 1000·n milliseconds |
| ProjectScheduleExecutor.HeartbeatDue | dataintegration-run/dataintegration-run-management-provider/src/main/java/com/youngdatafan/di/run/management/server/service/ProjectScheduleExecutorService.java:323 | for a forward clock step, a heartbeat is due exactly when at least 1000·`heartbeatInterval` milliseconds have passed since the last one |
| ProjectScheduleExecutor.CheckAsWritten | dataintegration-run/dataintegration-run-management-provider/src/main/java/com/youngdatafan/di/run/management/server/service/ProjectScheduleExecutorService.java:163-174 | as written: admitted without a guard or heartbeat; a parse failure on unparsable text; CODE_10010 exactly when the guard is held and the heartbeat is at least `heartbeatTimeout` seconds OLD |
| ProjectScheduleExecutor.CheckIntended | dataintegration-run/dataintegration-run-management-provider/src/main/java/com/youngdatafan/di/run/management/server/service/ProjectScheduleExecutorService.java:163-174 | as intended: the same, except CODE_10010 exactly when the guard is held and the heartbeat is FRESH |
| ProjectScheduleExecutor.CheckInverted | dataintegration-run/dataintegration-run-management-provider/src/main/java/com/youngdatafan/di/run/management/server/service/ProjectScheduleExecutorService.java:169-171 | for a heartbeat the service wrote, the check as written and the intended check always disagree, in both directions |
| ProjectScheduleExecutor.StaleGuardRefused | dataintegration-run/dataintegration-run-management-provider/src/main/java/com/youngdatafan/di/run/management/server/service/ProjectScheduleExecutorService.java:169-171 | timeout 180 s and no refresh for 200 s with the guard held: the intended check admits the new start, the check as written refuses it |
| ProjectScheduleExecutor.WrittenHeartbeatParses | dataintegration-run/dataintegration-run-management-provider/src/main/java/com/youngdatafan/di/run/management/server/service/ProjectScheduleExecutorService.java:169-170 | a heartbeat written by the service never makes the check fail to parse |
| ProjectScheduleExecutor.Progress | dataintegration-run/dataintegration-run-management-provider/src/main/java/com/youngdatafan/di/run/management/server/service/ProjectScheduleExecutorService.java:306-310 | a scheduled progress message is a success on `/runningState` with the steps and log, no request id and no error count |
| ProjectScheduleExecutor.ErrorNotice | dataintegration-run/dataintegration-run-management-provider/src/main/java/com/youngdatafan/di/run/management/server/service/ProjectScheduleExecutorService.java:210-213 | the catch block's notice is a SUCCESS envelope that does not say the run is over and carries only the failure log |
| ProjectScheduleExecutor.PollLoop | dataintegration-run/dataintegration-run-management-provider/src/main/java/com/youngdatafan/di/run/management/server/service/ProjectScheduleExecutorService.java:301-330 | nothing is sent or written when the engine is already done; the transformation is kept, stopped stays stopped, and at most one heartbeat is written per completed sleep |
| ProjectScheduleExecutor.PollLoopShape | dataintegration-run/dataintegration-run-management-provider/src/main/java/com/youngdatafan/di/run/management/server/service/ProjectScheduleExecutorService.java:301-330 | on a live engine 1 to ticks+1 messages, none final, all on `/runningState`; no heartbeat when the first sleep is interrupted |
| ProjectScheduleExecutor.LatestHeartbeat | dataintegration-run/dataintegration-run-management-provider/src/main/java/com/youngdatafan/di/run/management/server/service/ProjectScheduleExecutorService.java:322-329 | the hash ends up holding the last heartbeat the loop wrote, or the earlier one if it wrote none |
| ProjectScheduleExecutor.HeartbeatsThrottled | dataintegration-run/dataintegration-run-management-provider/src/main/java/com/youngdatafan/di/run/management/server/service/ProjectScheduleExecutorService.java:322-329 | each heartbeat written is at least `heartbeatInterval` whole seconds after the previous one, the first measured from `lastHeartbeatTime` |
| ProjectScheduleExecutor.HeartbeatStaysFresh | dataintegration-run/dataintegration-run-management-provider/src/main/java/com/youngdatafan/di/run/management/server/service/ProjectScheduleExecutorService.java:315-329 | with a monotone clock and bounded sleeps, the stored heartbeat is always less than interval + one sleep + the start-up lag old |
| ProjectScheduleExecutor.RunningExecutionUnguarded | dataintegration-run/dataintegration-run-management-provider/src/main/java/com/youngdatafan/di/run/management/server/service/ProjectScheduleExecutorService.java:163-174 | when the timeout exceeds interval + one sleep + the lag, at every poll of a healthy run the check as written admits a duplicate start and the intended check refuses it |
| ProjectScheduleExecutor.HeartbeatWrite | dataintegration-run/dataintegration-run-management-provider/src/main/java/com/youngdatafan/di/run/management/server/service/ProjectScheduleExecutorService.java:325 | writing the heartbeat field replaces the stored timestamp, whatever was stored before |
| ProjectScheduleExecutor.ReleasedEffect | dataintegration-run/dataintegration-run-management-provider/src/main/java/com/youngdatafan/di/run/management/server/service/ProjectScheduleExecutorService.java:238-241 | after a run the guard and heartbeat field are gone, the instance key still names this instance, and every other key and heartbeat field is unchanged |
| ProjectScheduleExecutor.ReleaseForgetsHeartbeat | dataintegration-run/dataintegration-run-management-provider/src/main/java/com/youngdatafan/di/run/management/server/service/ProjectScheduleExecutorService.java:238-241 | the release leaves the same store whatever heartbeat the run last wrote |
| ProjectScheduleExecutor.Reported | dataintegration-run/dataintegration-run-management-provider/src/main/java/com/youngdatafan/di/run/management/server/service/ProjectScheduleExecutorService.java:202-245 | an exception reaches the caller exactly when `execute` returned no executor, and then the engine is not taken as stopped; a failed build or start sends one notice carrying the exception's message and writes no heartbeat |
| ProjectScheduleExecutor.ReportedShape | dataintegration-run/dataintegration-run-management-provider/src/main/java/com/youngdatafan/di/run/management/server/service/ProjectScheduleExecutorService.java:202-245 | a failed build or start sends one non-final notice and rethrows; a started run sends exactly one final message, followed by a notice carrying the caller's log when errors make it throw, and then the history row ends END |
| ProjectScheduleExecutor.ProjectScheduleExecutorService.constructor | dataintegration-run/dataintegration-run-management-provider/src/main/java/com/youngdatafan/di/run/management/server/service/ProjectScheduleExecutorService.java:122-126 | the service starts with an empty executor map over the given configuration, Redis store, history and files |
| ProjectScheduleExecutor.ProjectScheduleExecutorService.Stop | dataintegration-run/dataintegration-run-management-provider/src/main/java/com/youngdatafan/di/run/management/server/service/ProjectScheduleExecutorService.java:133-156 | without a guard, false and nothing changes; otherwise guard, instance key and heartbeat field are deleted, and the answer is whether this instance runs the guarded id, whose engine is then stopped |
| ProjectScheduleExecutor.ProjectScheduleExecutorService.CheckExists | dataintegration-run/dataintegration-run-management-provider/src/main/java/com/youngdatafan/di/run/management/server/service/ProjectScheduleExecutorService.java:163-174 | the check as the source writes it (`CheckAsWritten`) |
| ProjectScheduleExecutor.ProjectScheduleExecutorService.SaveExecuteHistory | dataintegration-run/dataintegration-run-management-provider/src/main/java/com/youngdatafan/di/run/management/server/service/ProjectScheduleExecutorService.java:262-274 | appends the insert of a RUNNING JC_YXPT row |
| ProjectScheduleExecutor.ProjectScheduleExecutorService.UpdateHistoryStatus | dataintegration-run/dataintegration-run-management-provider/src/main/java/com/youngdatafan/di/run/management/server/service/ProjectScheduleExecutorService.java:248-260 | appends the single terminal update, TERMINATIN exactly for a returned and stopped executor |
| ProjectScheduleExecutor.ProjectScheduleExecutorService.BuildStepStatus | dataintegration-run/dataintegration-run-management-provider/src/main/java/com/youngdatafan/di/run/management/server/service/ProjectScheduleExecutorService.java:362-390 | one preview-free record per step, in step order |
| ProjectScheduleExecutor.ProjectScheduleExecutorService.BuildTransMeta | dataintegration-run/dataintegration-run-management-provider/src/main/java/com/youngdatafan/di/run/management/server/service/ProjectScheduleExecutorService.java:456-487 | a failed conversion throws before anything is written; otherwise the staged text is written at the execution's path, and a failed load then throws |
| ProjectScheduleExecutor.ProjectScheduleExecutorService.Heartbeat | dataintegration-run/dataintegration-run-management-provider/src/main/java/com/youngdatafan/di/run/management/server/service/ProjectScheduleExecutorService.java:322-329 | a due heartbeat stores the clock and moves `lastHeartbeatTime`; otherwise nothing changes |
| ProjectScheduleExecutor.ProjectScheduleExecutorService.Sleep | dataintegration-run/dataintegration-run-management-provider/src/main/java/com/youngdatafan/di/run/management/server/service/ProjectScheduleExecutorService.java:315-329 | one sleep advances the engine by its event, then applies the heartbeat throttle at the clock the sleep ended |
| ProjectScheduleExecutor.ProjectScheduleExecutorService.SleepThenResume | dataintegration-run/dataintegration-run-management-provider/src/main/java/com/youngdatafan/di/run/management/server/service/ProjectScheduleExecutorService.java:315-329 | after a completed sleep the run so far has grown by this poll's message and heartbeat, and the rest of `PollLoop` starts from the advanced engine |
| ProjectScheduleExecutor.ProjectScheduleExecutorService.Poll | dataintegration-run/dataintegration-run-management-provider/src/main/java/com/youngdatafan/di/run/management/server/service/ProjectScheduleExecutorService.java:301-330 | the messages, final engine state and stored heartbeat are those of `PollLoop` |
| ProjectScheduleExecutor.ProjectScheduleExecutorService.Execute | dataintegration-run/dataintegration-run-management-provider/src/main/java/com/youngdatafan/di/run/management/server/service/ProjectScheduleExecutorService.java:284-354 | registers the engine; sends the loop's messages plus one final one; throws with the caller's log exactly when the transformation counted errors |
| ProjectScheduleExecutor.ProjectScheduleExecutorService.Claim | dataintegration-run/dataintegration-run-management-provider/src/main/java/com/youngdatafan/di/run/management/server/service/ProjectScheduleExecutorService.java:190-195 | the guard names the executor id, the instance key this instance, and the heartbeat field holds the submission clock |
| ProjectScheduleExecutor.ProjectScheduleExecutorService.Release | dataintegration-run/dataintegration-run-management-provider/src/main/java/com/youngdatafan/di/run/management/server/service/ProjectScheduleExecutorService.java:238-241 | deletes the guard key and the heartbeat field, whatever heartbeat was stored |
| ProjectScheduleExecutor.ProjectScheduleExecutorService.Attempt | dataintegration-run/dataintegration-run-management-provider/src/main/java/com/youngdatafan/di/run/management/server/service/ProjectScheduleExecutorService.java:202-225 | the messages and rethrown exception are `Reported`; the handle stays registered only when `execute` returned it; the staged file holds what `buildTransMeta` staged and no other file changes |
| ProjectScheduleExecutor.ProjectScheduleExecutorService.Finally | dataintegration-run/dataintegration-run-management-provider/src/main/java/com/youngdatafan/di/run/management/server/service/ProjectScheduleExecutorService.java:226-245 | unregisters the id, deletes the staged file when configured and leaves every file as it was otherwise, releases guard and heartbeat, and appends the terminal history update |
| ProjectScheduleExecutor.ProjectScheduleExecutorService.RunAndRelease | dataintegration-run/dataintegration-run-management-provider/src/main/java/com/youngdatafan/di/run/management/server/service/ProjectScheduleExecutorService.java:202-245 | the try/catch/finally: the registry is restored, guard and heartbeat are released, the staged file is deleted when configured and otherwise holds the staged XML, and messages, exception and history update follow `Reported` |
| ProjectScheduleExecutor.ProjectScheduleExecutorService.ExecuteByFile | dataintegration-run/dataintegration-run-management-provider/src/main/java/com/youngdatafan/di/run/management/server/service/ProjectScheduleExecutorService.java:182-246 | on every path: registry restored, guard and heartbeat gone but the instance key left set, staged file deleted when configured and otherwise left holding the staged XML, one RUNNING insert and one terminal update, messages and rethrown exception as `Reported` |

## Left out

- Key expiry: the one-day TTL passed to `expire` and `set` is not modelled; keys live until deleted.
- Concurrency is not modelled: `@Async`, the thread-safe map, and interleavings between instances. The check-then-claim race is shown only as a sequential composition (`ProjectExecutor.CheckThenClaimRace`).
- `asyncExecuteByFile` is an `@Async` wrapper around `executeByFile` with no logic of its own.
- `generateExecutorId` in both services draws random letters. The executor id is a parameter, required not to be registered yet.
- The history id from `UUIDUtils.nextId()` is a parameter, taken to be fresh for `History.RunRecord`.
- `selectUserHistoryExecute` is a plain pass-through to a SQL mapper query and holds no logic.
- The Kettle engine itself is not modelled: `start`'s execution configuration (log level, safe mode, variables, run configuration) and what steps do. The engine's progress between polls is an input event.
- The JSON-to-XML conversion (`unescapeXml`, `XML.toString`), XML parsing and `TransMeta.loadXML` are inputs, either a result or an exception message. The missing-plugins check only logs and is omitted.
- Logging, and the `LogBrowser` beyond the log text it returns, are not modelled.
- The clock is not read by the model. `new Date()` and `System.currentTimeMillis()` become the parameters `now`, `startedAt`, `endNow` and each tick's clock. Readings the source takes separately at submission are the same `now` here.
- The sleep duration `refreshRateMs` is not modelled. A tick is one sleep, interrupted or not; an interrupted sleep still carries what the engine did before the interruption, and the loop then ends on that state.
- A `start` that returns is taken to leave a transformation (`getTrans()` non-null): the operations that run a started engine require it. The source dereferences `getTrans()` unchecked in the poll loop (line 338 of `ProjectExecutorService.java`, line 363 of `ProjectScheduleExecutorService.java`), so a null transformation there would throw a `NullPointerException` into the `catch (Exception e)` block; that path is not modelled.
- The file system is taken never to fail. `FileUtils.writeStringToFile` (line 509 of `ProjectExecutorService.java`, line 469 of `ProjectScheduleExecutorService.java`) is taken never to throw, so `StageOutcome` succeeds for every XML project file and `BuildTransMeta` always writes the staged text; a failed write, reported by the source through its `catch` block with the I/O message and leaving no staged file, is not modelled. `File.delete()` in the `finally` blocks (line 230 and line 234) is taken always to succeed: the source only logs its result, so the `Finally` and `ExecuteByFile` promise that the staged file is gone when `deleteTmpFile` is set holds only under that assumption.
- Redis and the history mapper are taken never to throw. In particular the calls made before the `try` (`saveUserExecuteProject` and `saveExecuteHistory`, lines 199-203 of `ProjectExecutorService.java`; the key writes and the history insert, lines 191-199 of `ProjectScheduleExecutorService.java`) would, if they threw, leave the guard held until its TTL without running the `finally` block; that leak is not modelled.
- `ProjectExecutorDTO` is not part of this model. Its fields are taken to default to `null`, except `transFinished`, which is taken to be a primitive `boolean` defaulting to false.
- Runs that never end are not modelled: the operations that run the poll loop require that the last tick ends the run.
- JSON rendering and parsing of requests are function parameters. `BeanUtils.copyProperties` is the identity on the modelled fields.
- A callback `onMessage` that throws is not modelled. Publication always succeeds.
- The failure header's characters are not legible in the repository's copy of the source. It is the named constant `Dto.FAILURE_HEADER`.
- The scheduled `DpException` from `start` and from `execute` is taken to report its message text (the engine log, resp. the caller's log) through `getMessage()`. The `DpException` class is not part of this model.
- JavaLang.ParseLong: accepts only ASCII digits, whereas `Long.parseLong` also accepts other Unicode decimal digits. The heartbeats the service writes are ASCII.
- ProjectExecutor.ProjectExecutorService.ResponseError: its stop branch never fires on the paths modelled here (see the lines above on `start` and on the callback), because those paths reach the `catch` only before the handle is registered. In the source it can fire after registration, when the callback or a null transformation throws inside the poll loop. It is stated in general.
- ProjectExecutor.Run: states only that the transformation is kept. The messages it sends are stated by `ProjectExecutor.RunShape`.
- ProjectExecutor.PollLoop: states only the done-engine case and flag preservation. The message bounds are stated by `ProjectExecutor.PollLoopShape`.
- StepReport.Interactive: states only the number of reports. Their contents are stated by `StepReport.InteractiveReports` and `StepReport.InteractiveRest`.
- ProjectExecutor.Reported: states only the failure paths. The started path is stated by `ProjectExecutor.ReportedShape`.
- ProjectScheduleExecutor.ProjectScheduleExecutorService.Attempt: does not state that the catch block stops the registered engine, because the handle is not returned to the caller; the body does stop it.

## Findings

| source | as written | input that shows it | evidently intended | confidence | as-written member | corrected member |
|---|---|---|---|---|---|---|
| dataintegration-run/dataintegration-run-management-provider/src/main/java/com/youngdatafan/di/run/management/server/service/ProjectScheduleExecutorService.java:169-171 | `checkExists` throws CODE_10010 when the stored heartbeat is at least `heartbeatTimeout` seconds OLD, and returns normally when it is recent | the guard is held and the heartbeat is 200 s old with timeout 180 s: refused (`ProjectScheduleExecutor.StaleGuardRefused`); a healthy run whose heartbeat is always fresh: a duplicate start is admitted at every poll (`ProjectScheduleExecutor.RunningExecutionUnguarded`) | refuse while the heartbeat is fresh; let a new start take over an execution whose heartbeat is stale | high, not executed | ProjectScheduleExecutor.CheckAsWritten | ProjectScheduleExecutor.CheckIntended |
