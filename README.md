# Task attempt of the MapReduce application master

This project models one task attempt of the MapReduce application master, the
`TaskAttemptImpl` class, in Dafny. The model has two parts:

- **The attempt's state machine.** An attempt has thirteen states (NEW through KILLED) and
  reacts to fifteen event types. A fixed transition table names, for each state and event
  type, the target state and the transition routine to run. The routines update the
  attempt's fields (container, times, remote task, reported status, diagnostics) and send
  messages: container requests and launches to the allocator and the container launcher,
  deltas to the speculator, history records, and notices to the task and the job. An event
  with no entry in the table is reported to the job as an internal error, and nothing else
  changes.
- **The distributed cache.** When the container launch context is built, the archives and
  files the job configures are turned into local resources. Artifacts on the class path
  are appended to `CLASSPATH`.

Files:

- `Wrappers.dfy`: `Option` and `Result`.
- `TaskAttemptTable.dfy`: the states, event types and routines, and the transition table
  as a pure function. Also lemmas about the table's terminal states and ignored events.
- `TaskAttemptModel.dfy`: the attempt's fields as a value, and the messages it sends.
  - One effect function per transition routine.
  - `Step`, which is `handle`, and `Run`, which is a sequence of `handle` calls.
  - The report.
- `TaskAttemptProperties.dfy`: what the state machine guarantees.
  - A state invariant that every event keeps.
  - Which events may write which fields.
  - The finish-time guard.
  - The speculator's pending-request count.
  - Diagnostics that only grow, and status updates that replace the status.
  - Time ordering under a clock that does not go backwards.
  - Two complete scenarios.
- `TaskAttemptImpl.dfy`: the attempt as a class whose fields `handle` and the routines
  update in place. Messages are appended to an `outbox` sequence. Each method is proved to
  change the fields and the outbox exactly as the value model says, so every property
  above holds of the object.
- `DistributedCache.dfy`: the launch context as a class with its resource and
  environment maps.
  - `parseDistributedCacheArtifacts`, `addCacheArtifactToClassPath`, `getFileSizes` and
    `setupDistributedCache` as methods with loops.
  - Each method is proved against a pure function: the loop is `Localize`.
  - Lemmas about the functions: the sanity check, naming, last writer wins, the class
    path, and files overriding archives.

Things the model takes as given:

- **The clock.** It is a parameter, `now`, and is read once per `handle` call.
- **Configuration.** What the configuration holds for the cache (URIs, timestamps, size
  strings, visibilities, class paths) is an input. So is the remote task the attempt would
  create, and its priority.
- **Design choices recorded in the table below.**
  - `getMemoryRequired` answers 1024 MB, as written. Its configuration read has no effect
    on the result.
  - The sanity check's message reads the length of the visibilities array. So a length
    mismatch together with a missing visibilities array raises a null pointer exception,
    not the invalid-specification error.
  - A resource name that is empty is reported as its own error. This is where Hadoop's
    `Path` constructor raises. Paths are not normalised, so a path ending in '/' also
    yields an empty name here. Hadoop would strip the '/' first (see "## Left out").
  - `Long.parseLong` accepts a leading '+', as it does from JDK 7 on.

## Model

| member | source | states |
|---|---|---|
| TaskAttemptTable.Transition | mr-client/hadoop-mapreduce-client-app/src/main/java/org/apache/hadoop/mapreduce/v2/app/job/impl/TaskAttemptImpl.java:144-357 | the table as declared: for each of the 13 states and 15 event types the arc (target and routine), or none when the event is invalid; the routines that read a payload sit only on the event type that carries it, and every arc without a routine is a self-loop |
| TaskAttemptTable.FinishedIffAbsorbing | mr-client/hadoop-mapreduce-client-app/src/main/java/org/apache/hadoop/mapreduce/v2/app/job/impl/TaskAttemptImpl.java:702-712 | `isFinished` holds exactly in the states that no event other than TA_TOO_MANY_FETCH_FAILURE moves elsewhere |
| TaskAttemptTable.FinishedIsClosed | mr-client/hadoop-mapreduce-client-app/src/main/java/org/apache/hadoop/mapreduce/v2/app/job/impl/TaskAttemptImpl.java:320-355 | no arc leads from a terminal state to a non-terminal one |
| TaskAttemptTable.FailedKilledAbsorbing | mr-client/hadoop-mapreduce-client-app/src/main/java/org/apache/hadoop/mapreduce/v2/app/job/impl/TaskAttemptImpl.java:333-355 | in FAILED and KILLED every arc is an ignored self-loop, and exactly TA_SCHEDULE, TA_TIMED_OUT, TA_CONTAINER_CLEANED, TA_CLEANUP_DONE, TA_CONTAINER_LAUNCH_FAILED and TA_TOO_MANY_FETCH_FAILURE are invalid |
| TaskAttemptTable.SucceededExit | mr-client/hadoop-mapreduce-client-app/src/main/java/org/apache/hadoop/mapreduce/v2/app/job/impl/TaskAttemptImpl.java:320-331 | SUCCEEDED is left only by TA_TOO_MANY_FETCH_FAILURE, and then for FAILED |
| TaskAttemptTable.ContainerCleanupEvents | mr-client/hadoop-mapreduce-client-app/src/main/java/org/apache/hadoop/mapreduce/v2/app/job/impl/TaskAttemptImpl.java:254-287 | FAIL_CONTAINER_CLEANUP and KILL_CONTAINER_CLEANUP ignore exactly nine event types (TA_TIMED_OUT and TA_CONTAINER_LAUNCHED among them) and reject exactly five |
| TaskAttemptTable.TaskCleanupEvents | mr-client/hadoop-mapreduce-client-app/src/main/java/org/apache/hadoop/mapreduce/v2/app/job/impl/TaskAttemptImpl.java:289-318 | FAIL_TASK_CLEANUP and KILL_TASK_CLEANUP ignore exactly seven event types and reject the rest, TA_TIMED_OUT and TA_CONTAINER_LAUNCHED included |
| TaskAttemptTable.SuccessCleanupEvents | mr-client/hadoop-mapreduce-client-app/src/main/java/org/apache/hadoop/mapreduce/v2/app/job/impl/TaskAttemptImpl.java:241-252 | SUCCESS_CONTAINER_CLEANUP ignores exactly TA_KILL, TA_FAILMSG, TA_TIMED_OUT and TA_CONTAINER_COMPLETED |
| TaskAttemptTable.EarlyStatesIgnoreNothing | mr-client/hadoop-mapreduce-client-app/src/main/java/org/apache/hadoop/mapreduce/v2/app/job/impl/TaskAttemptImpl.java:151-239 | NEW, UNASSIGNED, ASSIGNED, RUNNING and COMMIT_PENDING declare no ignored events: every arc there runs a routine |
| TaskAttemptTable.AssignAndLaunchSites | mr-client/hadoop-mapreduce-client-app/src/main/java/org/apache/hadoop/mapreduce/v2/app/job/impl/TaskAttemptImpl.java:159-182 | the container-assigned routine runs only on UNASSIGNED with TA_ASSIGNED, the launched routine only on ASSIGNED with TA_CONTAINER_LAUNCHED |
| TaskAttemptModel.GetMemoryRequired | mr-client/hadoop-mapreduce-client-app/src/main/java/org/apache/hadoop/mapreduce/v2/app/job/impl/TaskAttemptImpl.java:412-421 | the memory request is 1024 MB whatever the task type and whatever the configuration holds |
| TaskAttemptModel.InitialStatus | mr-client/hadoop-mapreduce-client-app/src/main/java/org/apache/hadoop/mapreduce/v2/app/job/impl/TaskAttemptImpl.java:1173-1181 | the status before any report: progress 0, empty diagnostic, phase STARTING, state string "NEW", empty counters |
| TaskAttemptModel.Initial | mr-client/hadoop-mapreduce-client-app/src/main/java/org/apache/hadoop/mapreduce/v2/app/job/impl/TaskAttemptImpl.java:374-410 | a new attempt is NEW with zero times, no container, no remote task and no diagnostics |
| TaskAttemptModel.AddDiagnosticInfo | mr-client/hadoop-mapreduce-client-app/src/main/java/org/apache/hadoop/mapreduce/v2/app/job/impl/TaskAttemptImpl.java:1124-1128 | a diagnostic is appended exactly when it is non-null and non-empty; otherwise the list is unchanged |
| TaskAttemptModel.SetFinishTime | mr-client/hadoop-mapreduce-client-app/src/main/java/org/apache/hadoop/mapreduce/v2/app/job/impl/TaskAttemptImpl.java:811-816 | the finish time becomes the clock if a launch time was recorded and is untouched otherwise; no other field changes |
| TaskAttemptModel.GetCounters | mr-client/hadoop-mapreduce-client-app/src/main/java/org/apache/hadoop/mapreduce/v2/app/job/impl/TaskAttemptImpl.java:749-761 | the reported counters, or an empty structure when the status has none |
| TaskAttemptModel.RequestContainerEffect | mr-client/hadoop-mapreduce-client-app/src/main/java/org/apache/hadoop/mapreduce/v2/app/job/impl/TaskAttemptImpl.java:819-833 | requesting a container changes no field |
| TaskAttemptModel.ContainerAssignedEffect | mr-client/hadoop-mapreduce-client-app/src/main/java/org/apache/hadoop/mapreduce/v2/app/job/impl/TaskAttemptImpl.java:835-870 | the assignment creates the remote task and leaves both times untouched |
| TaskAttemptModel.DeallocateContainerEffect | mr-client/hadoop-mapreduce-client-app/src/main/java/org/apache/hadoop/mapreduce/v2/app/job/impl/TaskAttemptImpl.java:872-911 | deallocation changes the fields only as `setFinishTime` does |
| TaskAttemptModel.LaunchedContainerEffect | mr-client/hadoop-mapreduce-client-app/src/main/java/org/apache/hadoop/mapreduce/v2/app/job/impl/TaskAttemptImpl.java:913-943 | the launch records the clock as launch time and drops the remote task, registering the old remote task and JVM id first of four messages |
| TaskAttemptModel.CommitPendingEffect | mr-client/hadoop-mapreduce-client-app/src/main/java/org/apache/hadoop/mapreduce/v2/app/job/impl/TaskAttemptImpl.java:945-954 | commit-pending changes no field |
| TaskAttemptModel.TaskCleanupEffect | mr-client/hadoop-mapreduce-client-app/src/main/java/org/apache/hadoop/mapreduce/v2/app/job/impl/TaskAttemptImpl.java:956-969 | asking for the task cleanup changes no field |
| TaskAttemptModel.SucceededEffect | mr-client/hadoop-mapreduce-client-app/src/main/java/org/apache/hadoop/mapreduce/v2/app/job/impl/TaskAttemptImpl.java:971-1020 | success changes the fields only as `setFinishTime` does |
| TaskAttemptModel.FailedEffect | mr-client/hadoop-mapreduce-client-app/src/main/java/org/apache/hadoop/mapreduce/v2/app/job/impl/TaskAttemptImpl.java:1022-1067 | failure changes the fields only as `setFinishTime` does |
| TaskAttemptModel.TooManyFetchFailureEffect | mr-client/hadoop-mapreduce-client-app/src/main/java/org/apache/hadoop/mapreduce/v2/app/job/impl/TaskAttemptImpl.java:1069-1080 | too many fetch failures append exactly the fixed diagnostic |
| TaskAttemptModel.KilledEffect | mr-client/hadoop-mapreduce-client-app/src/main/java/org/apache/hadoop/mapreduce/v2/app/job/impl/TaskAttemptImpl.java:1082-1104 | a kill changes the fields only as `setFinishTime` does |
| TaskAttemptModel.CleanupContainerEffect | mr-client/hadoop-mapreduce-client-app/src/main/java/org/apache/hadoop/mapreduce/v2/app/job/impl/TaskAttemptImpl.java:1106-1122 | the container cleanup changes no field |
| TaskAttemptModel.StatusUpdaterEffect | mr-client/hadoop-mapreduce-client-app/src/main/java/org/apache/hadoop/mapreduce/v2/app/job/impl/TaskAttemptImpl.java:1130-1158 | a status update makes the new status the reported one |
| TaskAttemptModel.DiagnosticInformationUpdaterEffect | mr-client/hadoop-mapreduce-client-app/src/main/java/org/apache/hadoop/mapreduce/v2/app/job/impl/TaskAttemptImpl.java:1160-1171 | a diagnostics update sends nothing |
| TaskAttemptModel.Step | mr-client/hadoop-mapreduce-client-app/src/main/java/org/apache/hadoop/mapreduce/v2/app/job/impl/TaskAttemptImpl.java:784-808 | an event without an arc leaves every field as it was and sends the two invalid-event messages; with an arc the new state is the table's target |
| TaskAttemptModel.GetReport | mr-client/hadoop-mapreduce-client-app/src/main/java/org/apache/hadoop/mapreduce/v2/app/job/impl/TaskAttemptImpl.java:715-737 | the report takes the attempt's own state and times, and the counters as `getCounters` gives them |
| TaskAttemptProperties.InvalidEventReported | mr-client/hadoop-mapreduce-client-app/src/main/java/org/apache/hadoop/mapreduce/v2/app/job/impl/TaskAttemptImpl.java:789-799 | an event without an arc changes nothing and sends exactly a diagnostics update then an internal error; an internal error is sent exactly when the event has no arc |
| TaskAttemptProperties.NoInternalErrorFromHook | mr-client/hadoop-mapreduce-client-app/src/main/java/org/apache/hadoop/mapreduce/v2/app/job/impl/TaskAttemptImpl.java:819-1171 | no transition routine raises an internal error |
| TaskAttemptProperties.IgnoredEventIsNoOp | mr-client/hadoop-mapreduce-client-app/src/main/java/org/apache/hadoop/mapreduce/v2/app/job/impl/TaskAttemptImpl.java:144-357 | an ignored event is a self-loop that changes no field and sends nothing |
| TaskAttemptProperties.TimedOutAfterFailure | mr-client/hadoop-mapreduce-client-app/src/main/java/org/apache/hadoop/mapreduce/v2/app/job/impl/TaskAttemptImpl.java:259-303 | TA_TIMED_OUT is a no-op in FAIL_CONTAINER_CLEANUP but is reported as invalid in FAIL_TASK_CLEANUP |
| TaskAttemptProperties.FetchFailureWhileRunningInvalid | mr-client/hadoop-mapreduce-client-app/src/main/java/org/apache/hadoop/mapreduce/v2/app/job/impl/TaskAttemptImpl.java:184-214 | TA_TOO_MANY_FETCH_FAILURE while RUNNING is invalid: nothing changes and the job is told |
| TaskAttemptProperties.InitialInv | mr-client/hadoop-mapreduce-client-app/src/main/java/org/apache/hadoop/mapreduce/v2/app/job/impl/TaskAttemptImpl.java:374-410 | a new attempt satisfies the invariant tying the container fields, the remote task, the times and the diagnostics to the state |
| TaskAttemptProperties.DiagnosticsStayNonEmpty | mr-client/hadoop-mapreduce-client-app/src/main/java/org/apache/hadoop/mapreduce/v2/app/job/impl/TaskAttemptImpl.java:1124-1128 | no event adds an empty diagnostic |
| TaskAttemptProperties.StepPreservesInv | mr-client/hadoop-mapreduce-client-app/src/main/java/org/apache/hadoop/mapreduce/v2/app/job/impl/TaskAttemptImpl.java:784-808 | every event, valid or not, preserves the invariant |
| TaskAttemptProperties.RunPreservesInv | mr-client/hadoop-mapreduce-client-app/src/main/java/org/apache/hadoop/mapreduce/v2/app/job/impl/TaskAttemptImpl.java:784-808 | the invariant holds after any sequence of events |
| TaskAttemptProperties.CleanupNamesContainer | mr-client/hadoop-mapreduce-client-app/src/main/java/org/apache/hadoop/mapreduce/v2/app/job/impl/TaskAttemptImpl.java:1106-1122 | in a state satisfying the invariant, a container cleanup always names the attempt's own container, address and token, none of them null |
| TaskAttemptProperties.CleanupOnlyFromCleanupHook | mr-client/hadoop-mapreduce-client-app/src/main/java/org/apache/hadoop/mapreduce/v2/app/job/impl/TaskAttemptImpl.java:1106-1122 | only the cleanup routine sends a container cleanup, carrying the attempt's container fields |
| TaskAttemptProperties.CleanupOnlyFromContainerStates | mr-client/hadoop-mapreduce-client-app/src/main/java/org/apache/hadoop/mapreduce/v2/app/job/impl/TaskAttemptImpl.java:170-239 | a container cleanup is sent only from ASSIGNED, RUNNING or COMMIT_PENDING |
| TaskAttemptProperties.LaunchTimeOnlyOnLaunch | mr-client/hadoop-mapreduce-client-app/src/main/java/org/apache/hadoop/mapreduce/v2/app/job/impl/TaskAttemptImpl.java:913-943 | the launch time changes only on ASSIGNED with TA_CONTAINER_LAUNCHED, which moves to RUNNING, records the clock and drops the remote task |
| TaskAttemptProperties.LaunchTimeOnlyByLaunchHook | mr-client/hadoop-mapreduce-client-app/src/main/java/org/apache/hadoop/mapreduce/v2/app/job/impl/TaskAttemptImpl.java:913-943 | of all routines only the launched routine writes the launch time |
| TaskAttemptProperties.ContainerFieldsOnlyOnAssign | mr-client/hadoop-mapreduce-client-app/src/main/java/org/apache/hadoop/mapreduce/v2/app/job/impl/TaskAttemptImpl.java:835-870 | the container id, address, token and JVM id change only on UNASSIGNED with TA_ASSIGNED, which sets them from the event, creates the remote task and sends the launch request then -1 to the speculator |
| TaskAttemptProperties.ContainerFieldsOnlyByAssignHook | mr-client/hadoop-mapreduce-client-app/src/main/java/org/apache/hadoop/mapreduce/v2/app/job/impl/TaskAttemptImpl.java:835-870 | of all routines only the container-assigned routine writes the container fields |
| TaskAttemptProperties.RemoteTaskOnlyOnAssignOrLaunch | mr-client/hadoop-mapreduce-client-app/src/main/java/org/apache/hadoop/mapreduce/v2/app/job/impl/TaskAttemptImpl.java:842-848 | the remote task changes only on the assignment and on the launch |
| TaskAttemptProperties.RemoteTaskOnlyByAssignOrLaunchHook | mr-client/hadoop-mapreduce-client-app/src/main/java/org/apache/hadoop/mapreduce/v2/app/job/impl/TaskAttemptImpl.java:913-943 | of all routines only the assignment and the launch write the remote task |
| TaskAttemptProperties.FinishTimeGuard | mr-client/hadoop-mapreduce-client-app/src/main/java/org/apache/hadoop/mapreduce/v2/app/job/impl/TaskAttemptImpl.java:811-816 | through `handle`, the finish time moves only to the clock and only after a launch |
| TaskAttemptProperties.NoFinishTimeWithoutLaunch | mr-client/hadoop-mapreduce-client-app/src/main/java/org/apache/hadoop/mapreduce/v2/app/job/impl/TaskAttemptImpl.java:872-911 | an attempt in NEW, UNASSIGNED or ASSIGNED keeps a zero finish time whatever event arrives, including a launch failure, a kill or a failure |
| TaskAttemptProperties.FinishTimeWrittenTwice | mr-client/hadoop-mapreduce-client-app/src/main/java/org/apache/hadoop/mapreduce/v2/app/job/impl/TaskAttemptImpl.java:971-1080 | after success the finish time is set when the container is cleaned and set again when too many fetch failures turn SUCCEEDED into FAILED |
| TaskAttemptProperties.SucceededStep | mr-client/hadoop-mapreduce-client-app/src/main/java/org/apache/hadoop/mapreduce/v2/app/job/impl/TaskAttemptImpl.java:241-252 | a cleaned container after success gives SUCCEEDED with the success routine's effect |
| TaskAttemptProperties.TooManyFetchFailureStep | mr-client/hadoop-mapreduce-client-app/src/main/java/org/apache/hadoop/mapreduce/v2/app/job/impl/TaskAttemptImpl.java:320-331 | too many fetch failures after success give FAILED with that routine's effect |
| TaskAttemptProperties.DiagnosticsAppendOnly | mr-client/hadoop-mapreduce-client-app/src/main/java/org/apache/hadoop/mapreduce/v2/app/job/impl/TaskAttemptImpl.java:1124-1128 | the diagnostics only grow, keeping their order, by at most one non-empty entry per event |
| TaskAttemptProperties.StatusUpdateReplaces | mr-client/hadoop-mapreduce-client-app/src/main/java/org/apache/hadoop/mapreduce/v2/app/job/impl/TaskAttemptImpl.java:1130-1158 | a status update replaces the reported status wholesale, appends its diagnostic unless empty, changes nothing else, forwards the status to the speculator, and reports fetch failures exactly when some are listed |
| TaskAttemptProperties.StatusOnlyReplacedByUpdate | mr-client/hadoop-mapreduce-client-app/src/main/java/org/apache/hadoop/mapreduce/v2/app/job/impl/TaskAttemptImpl.java:1130-1158 | only a status update in RUNNING or COMMIT_PENDING changes the reported status |
| TaskAttemptProperties.StatusKeptUntilNextUpdate | mr-client/hadoop-mapreduce-client-app/src/main/java/org/apache/hadoop/mapreduce/v2/app/job/impl/TaskAttemptImpl.java:1130-1158 | without a status update the reported status stays as it was over any sequence of events |
| TaskAttemptProperties.ReportAfterUpdate | mr-client/hadoop-mapreduce-client-app/src/main/java/org/apache/hadoop/mapreduce/v2/app/job/impl/TaskAttemptImpl.java:715-737 | after an update the report carries the new progress, diagnostic, phase, state string and counters, but the attempt's own state |
| TaskAttemptProperties.InitialReport | mr-client/hadoop-mapreduce-client-app/src/main/java/org/apache/hadoop/mapreduce/v2/app/job/impl/TaskAttemptImpl.java:1173-1181 | a new attempt reports NEW, zero times, zero progress, phase STARTING and no counters |
| TaskAttemptProperties.TooManyFetchFailureFails | mr-client/hadoop-mapreduce-client-app/src/main/java/org/apache/hadoop/mapreduce/v2/app/job/impl/TaskAttemptImpl.java:1069-1080 | too many fetch failures after success give FAILED, append exactly "Too Many fetch failures.Failing the attempt", reset the finish time if launched, and tell only the task |
| TaskAttemptProperties.PendingDeltaConcat | mr-client/hadoop-mapreduce-client-app/src/main/java/org/apache/hadoop/mapreduce/v2/app/job/impl/TaskAttemptImpl.java:819-911 | the net speculator delta of two message lists is the sum of their deltas |
| TaskAttemptProperties.DeallocatePendingDelta | mr-client/hadoop-mapreduce-client-app/src/main/java/org/apache/hadoop/mapreduce/v2/app/job/impl/TaskAttemptImpl.java:893-896 | deallocation sends -1 to the speculator exactly when it withdraws the container request |
| TaskAttemptProperties.HookPendingDelta | mr-client/hadoop-mapreduce-client-app/src/main/java/org/apache/hadoop/mapreduce/v2/app/job/impl/TaskAttemptImpl.java:819-911 | each routine sends its fixed net delta to the speculator: +1 for the request, -1 for the assignment, -1 for a withdrawing deallocation, 0 for the rest |
| TaskAttemptProperties.TablePendingDelta | mr-client/hadoop-mapreduce-client-app/src/main/java/org/apache/hadoop/mapreduce/v2/app/job/impl/TaskAttemptImpl.java:159-168 | along every arc, the routine's delta is the change in whether a request is pending (pending exactly in UNASSIGNED) |
| TaskAttemptProperties.StepPendingDelta | mr-client/hadoop-mapreduce-client-app/src/main/java/org/apache/hadoop/mapreduce/v2/app/job/impl/TaskAttemptImpl.java:164-176 | each event moves the speculator's count by the change in whether the attempt is UNASSIGNED, so a launch failure after the assignment withdraws nothing |
| TaskAttemptProperties.RunPendingDelta | mr-client/hadoop-mapreduce-client-app/src/main/java/org/apache/hadoop/mapreduce/v2/app/job/impl/TaskAttemptImpl.java:819-911 | over any sequence of events the speculator's count moves by the change in whether the attempt is UNASSIGNED |
| TaskAttemptProperties.PendingIsZeroOrOne | mr-client/hadoop-mapreduce-client-app/src/main/java/org/apache/hadoop/mapreduce/v2/app/job/impl/TaskAttemptImpl.java:819-911 | from a new attempt the net pending count is always 0 or 1, and 1 exactly in UNASSIGNED |
| TaskAttemptProperties.StepKeepsTimesOrdered | mr-client/hadoop-mapreduce-client-app/src/main/java/org/apache/hadoop/mapreduce/v2/app/job/impl/TaskAttemptImpl.java:811-943 | with a clock that does not go backwards, each event keeps the recorded times at or before the clock and the finish not before the launch |
| TaskAttemptProperties.HookKeepsTimesOrdered | mr-client/hadoop-mapreduce-client-app/src/main/java/org/apache/hadoop/mapreduce/v2/app/job/impl/TaskAttemptImpl.java:811-943 | each routine records only the clock as a time |
| TaskAttemptProperties.FinishNotBeforeLaunch | mr-client/hadoop-mapreduce-client-app/src/main/java/org/apache/hadoop/mapreduce/v2/app/job/impl/TaskAttemptImpl.java:811-943 | from a new attempt with a clock that never goes backwards, a recorded finish time is never before the launch time |
| TaskAttemptProperties.RunSnoc | mr-client/hadoop-mapreduce-client-app/src/main/java/org/apache/hadoop/mapreduce/v2/app/job/impl/TaskAttemptImpl.java:784-808 | handling one more event after a run is one more step |
| TaskAttemptProperties.StepAlong | mr-client/hadoop-mapreduce-client-app/src/main/java/org/apache/hadoop/mapreduce/v2/app/job/impl/TaskAttemptImpl.java:784-808 | an event with an arc runs the arc's routine and then enters the arc's target |
| TaskAttemptProperties.KillWhileRunning | mr-client/hadoop-mapreduce-client-app/src/main/java/org/apache/hadoop/mapreduce/v2/app/job/impl/TaskAttemptImpl.java:184-318 | a kill while RUNNING goes through KILL_CONTAINER_CLEANUP and KILL_TASK_CLEANUP to KILLED, sending exactly the unregistration, the container cleanup, the task cleanup, the history record and the notice to the task |
| TaskAttemptProperties.LaunchFailure | mr-client/hadoop-mapreduce-client-app/src/main/java/org/apache/hadoop/mapreduce/v2/app/job/impl/TaskAttemptImpl.java:159-182 | schedule, assignment, then a launch failure ends FAILED with a zero finish time, after exactly one request, one launch request, one deallocation, and +1 then -1 to the speculator |
| TaskAttempt.TaskAttemptImpl.constructor | mr-client/hadoop-mapreduce-client-app/src/main/java/org/apache/hadoop/mapreduce/v2/app/job/impl/TaskAttemptImpl.java:374-421 | a new attempt asks for 1024 MB, starts with the initial fields and an empty outbox, and satisfies the invariant |
| TaskAttempt.TaskAttemptImpl.Handle | mr-client/hadoop-mapreduce-client-app/src/main/java/org/apache/hadoop/mapreduce/v2/app/job/impl/TaskAttemptImpl.java:784-808 | the fields and the outbox change exactly as `Step` says, and the invariant is kept |
| TaskAttempt.TaskAttemptImpl.RunHook | mr-client/hadoop-mapreduce-client-app/src/main/java/org/apache/hadoop/mapreduce/v2/app/job/impl/TaskAttemptImpl.java:819-1171 | running the arc's routine updates the fields and the outbox exactly as that routine's effect says |
| TaskAttempt.TaskAttemptImpl.SetFinish | mr-client/hadoop-mapreduce-client-app/src/main/java/org/apache/hadoop/mapreduce/v2/app/job/impl/TaskAttemptImpl.java:811-816 | the fields change as `SetFinishTime` says and nothing is sent |
| TaskAttempt.TaskAttemptImpl.AddDiagnostic | mr-client/hadoop-mapreduce-client-app/src/main/java/org/apache/hadoop/mapreduce/v2/app/job/impl/TaskAttemptImpl.java:1124-1128 | the diagnostics change as `AddDiagnosticInfo` says and nothing else does |
| TaskAttempt.TaskAttemptImpl.RequestContainer | mr-client/hadoop-mapreduce-client-app/src/main/java/org/apache/hadoop/mapreduce/v2/app/job/impl/TaskAttemptImpl.java:819-833 | no field changes; the speculator +1 and the container request are sent |
| TaskAttempt.TaskAttemptImpl.AssignContainer | mr-client/hadoop-mapreduce-client-app/src/main/java/org/apache/hadoop/mapreduce/v2/app/job/impl/TaskAttemptImpl.java:835-870 | the fields and the outbox change as the assignment's effect says |
| TaskAttempt.TaskAttemptImpl.DeallocateContainer | mr-client/hadoop-mapreduce-client-app/src/main/java/org/apache/hadoop/mapreduce/v2/app/job/impl/TaskAttemptImpl.java:872-911 | the fields and the outbox change as the deallocation's effect says |
| TaskAttempt.TaskAttemptImpl.LaunchedContainer | mr-client/hadoop-mapreduce-client-app/src/main/java/org/apache/hadoop/mapreduce/v2/app/job/impl/TaskAttemptImpl.java:913-943 | the fields and the outbox change as the launch's effect says |
| TaskAttempt.TaskAttemptImpl.Succeeded | mr-client/hadoop-mapreduce-client-app/src/main/java/org/apache/hadoop/mapreduce/v2/app/job/impl/TaskAttemptImpl.java:971-1020 | the fields and the outbox change as the success effect says |
| TaskAttempt.TaskAttemptImpl.Failed | mr-client/hadoop-mapreduce-client-app/src/main/java/org/apache/hadoop/mapreduce/v2/app/job/impl/TaskAttemptImpl.java:1022-1067 | the fields and the outbox change as the failure effect says |
| TaskAttempt.TaskAttemptImpl.TooManyFetchFailures | mr-client/hadoop-mapreduce-client-app/src/main/java/org/apache/hadoop/mapreduce/v2/app/job/impl/TaskAttemptImpl.java:1069-1080 | the fields and the outbox change as the fetch-failure effect says |
| TaskAttempt.TaskAttemptImpl.Killed | mr-client/hadoop-mapreduce-client-app/src/main/java/org/apache/hadoop/mapreduce/v2/app/job/impl/TaskAttemptImpl.java:1082-1104 | the fields and the outbox change as the kill effect says |
| TaskAttempt.TaskAttemptImpl.CleanupContainer | mr-client/hadoop-mapreduce-client-app/src/main/java/org/apache/hadoop/mapreduce/v2/app/job/impl/TaskAttemptImpl.java:1106-1122 | no field changes; the unregistration and the container cleanup are sent |
| TaskAttempt.TaskAttemptImpl.UpdateStatus | mr-client/hadoop-mapreduce-client-app/src/main/java/org/apache/hadoop/mapreduce/v2/app/job/impl/TaskAttemptImpl.java:1130-1158 | the fields and the outbox change as the status update's effect says |
| DistributedCache.ContainerLaunchContext.constructor | mr-client/hadoop-mapreduce-client-app/src/main/java/org/apache/hadoop/mapreduce/v2/app/job/impl/TaskAttemptImpl.java:438-441 | a fresh launch context has no resources and an empty environment |
| DistributedCache.LastComponent | mr-client/hadoop-mapreduce-client-app/src/main/java/org/apache/hadoop/mapreduce/v2/app/job/impl/TaskAttemptImpl.java:603-604 | the file name of a path: no '/' in it, a suffix of the path, preceded by '/' when shorter than the path |
| DistributedCache.ResourceName | mr-client/hadoop-mapreduce-client-app/src/main/java/org/apache/hadoop/mapreduce/v2/app/job/impl/TaskAttemptImpl.java:602-605 | a resource is keyed by the URI fragment if present, otherwise by the last path component |
| DistributedCache.VisibilityOf | mr-client/hadoop-mapreduce-client-app/src/main/java/org/apache/hadoop/mapreduce/v2/app/job/impl/TaskAttemptImpl.java:613-615 | a visibility flag of true gives PUBLIC and false gives PRIVATE |
| DistributedCache.ClassPathWith | mr-client/hadoop-mapreduce-client-app/src/main/java/org/apache/hadoop/mapreduce/v2/app/job/impl/TaskAttemptImpl.java:625-635 | CLASSPATH becomes the file name if unset, else the old value, ':' and the file name; no other variable changes |
| DistributedCache.JoinSnoc | mr-client/hadoop-mapreduce-client-app/src/main/java/org/apache/hadoop/mapreduce/v2/app/job/impl/TaskAttemptImpl.java:625-635 | joining one more name with ':' appends ':' and the name |
| DistributedCache.CheckSpecification | mr-client/hadoop-mapreduce-client-app/src/main/java/org/apache/hadoop/mapreduce/v2/app/job/impl/TaskAttemptImpl.java:583-591 | the check passes exactly when all three arrays are present and as long as the URIs; a mismatch reports the lengths of the URIs, timestamps and visibilities |
| DistributedCache.Zip | mr-client/hadoop-mapreduce-client-app/src/main/java/org/apache/hadoop/mapreduce/v2/app/job/impl/TaskAttemptImpl.java:599-617 | the i-th artifact is the i-th URI, timestamp, size and visibility |
| DistributedCache.ParseLong | mr-client/hadoop-mapreduce-client-app/src/main/java/org/apache/hadoop/mapreduce/v2/app/job/impl/TaskAttemptImpl.java:645-645 | a parsed size is a signed 64-bit value from a string that starts with a digit or a sign |
| DistributedCache.NatDigits | mr-client/hadoop-mapreduce-client-app/src/main/java/org/apache/hadoop/mapreduce/v2/app/job/impl/TaskAttemptImpl.java:645-645 | the decimal digits of a natural number denote that number |
| DistributedCache.ParseFormatLong | mr-client/hadoop-mapreduce-client-app/src/main/java/org/apache/hadoop/mapreduce/v2/app/job/impl/TaskAttemptImpl.java:645-645 | every long survives being written in decimal and parsed back |
| DistributedCache.ParseAllMeaning | mr-client/hadoop-mapreduce-client-app/src/main/java/org/apache/hadoop/mapreduce/v2/app/job/impl/TaskAttemptImpl.java:643-646 | the sizes parse exactly when every string is a long, giving one value per string in order; otherwise the first bad string is reported |
| DistributedCache.LocalizeFailureSticks | mr-client/hadoop-mapreduce-client-app/src/main/java/org/apache/hadoop/mapreduce/v2/app/job/impl/TaskAttemptImpl.java:599-621 | once an iteration raises, later artifacts change nothing |
| DistributedCache.LocalizeSucceedsIffNamesValid | mr-client/hadoop-mapreduce-client-app/src/main/java/org/apache/hadoop/mapreduce/v2/app/job/impl/TaskAttemptImpl.java:599-621 | the loop completes exactly when every artifact's name is non-empty and relative |
| DistributedCache.LocalizeOneSucceedsIffNameValid | mr-client/hadoop-mapreduce-client-app/src/main/java/org/apache/hadoop/mapreduce/v2/app/job/impl/TaskAttemptImpl.java:603-608 | one iteration completes exactly when the artifact's name is valid |
| DistributedCache.StopsAtFirstInvalidName | mr-client/hadoop-mapreduce-client-app/src/main/java/org/apache/hadoop/mapreduce/v2/app/job/impl/TaskAttemptImpl.java:606-608 | the loop stops at the first artifact with an absolute or empty name, raising for it, with the earlier artifacts already in place |
| DistributedCache.LocalizeKeys | mr-client/hadoop-mapreduce-client-app/src/main/java/org/apache/hadoop/mapreduce/v2/app/job/impl/TaskAttemptImpl.java:609-617 | on completion the resources are the old ones plus one key per artifact name |
| DistributedCache.LastWriterWins | mr-client/hadoop-mapreduce-client-app/src/main/java/org/apache/hadoop/mapreduce/v2/app/job/impl/TaskAttemptImpl.java:609-617 | on completion, the entry for a name is the last artifact with that name: an earlier collision is overwritten, not reported |
| DistributedCache.OtherResourcesKept | mr-client/hadoop-mapreduce-client-app/src/main/java/org/apache/hadoop/mapreduce/v2/app/job/impl/TaskAttemptImpl.java:609-617 | on completion an entry no artifact names is unchanged |
| DistributedCache.WithClassPathSnoc | mr-client/hadoop-mapreduce-client-app/src/main/java/org/apache/hadoop/mapreduce/v2/app/job/impl/TaskAttemptImpl.java:618-635 | appending one more class-path name is one more `addCacheArtifactToClassPath` |
| DistributedCache.LocalizeClassPath | mr-client/hadoop-mapreduce-client-app/src/main/java/org/apache/hadoop/mapreduce/v2/app/job/impl/TaskAttemptImpl.java:618-620 | on completion CLASSPATH has the names of the artifacts on the class path appended, ':'-joined, in encounter order; nothing else in the environment changes |
| DistributedCache.NoUrisNoChange | mr-client/hadoop-mapreduce-client-app/src/main/java/org/apache/hadoop/mapreduce/v2/app/job/impl/TaskAttemptImpl.java:581-581 | without URIs nothing changes and nothing is raised |
| DistributedCache.MismatchChangesNothing | mr-client/hadoop-mapreduce-client-app/src/main/java/org/apache/hadoop/mapreduce/v2/app/job/impl/TaskAttemptImpl.java:583-591 | a missing array or a length mismatch raises before any resource or class-path entry is added |
| DistributedCache.MismatchWithoutVisibilities | mr-client/hadoop-mapreduce-client-app/src/main/java/org/apache/hadoop/mapreduce/v2/app/job/impl/TaskAttemptImpl.java:583-590 | a length mismatch with no visibilities array raises a null pointer exception while building the message |
| DistributedCache.FilesOverrideArchives | mr-client/hadoop-mapreduce-client-app/src/main/java/org/apache/hadoop/mapreduce/v2/app/job/impl/TaskAttemptImpl.java:553-571 | when archives and files are both placed, a file's name is keyed to the last file with that name whatever the archives held |
| DistributedCache.AddCacheArtifactToClassPath | mr-client/hadoop-mapreduce-client-app/src/main/java/org/apache/hadoop/mapreduce/v2/app/job/impl/TaskAttemptImpl.java:625-635 | the environment changes as `ClassPathWith` says; the resources do not change |
| DistributedCache.ClassPathKeys | mr-client/hadoop-mapreduce-client-app/src/main/java/org/apache/hadoop/mapreduce/v2/app/job/impl/TaskAttemptImpl.java:593-598 | the loop collects exactly the class-path paths |
| DistributedCache.ParseDistributedCacheArtifacts | mr-client/hadoop-mapreduce-client-app/src/main/java/org/apache/hadoop/mapreduce/v2/app/job/impl/TaskAttemptImpl.java:576-623 | the launch context and the exception raised are exactly as `ParseArtifacts` gives them |
| DistributedCache.LocalizeArtifacts | mr-client/hadoop-mapreduce-client-app/src/main/java/org/apache/hadoop/mapreduce/v2/app/job/impl/TaskAttemptImpl.java:599-621 | the loop leaves the launch context and raises exactly as `Localize` gives |
| DistributedCache.PutArtifact | mr-client/hadoop-mapreduce-client-app/src/main/java/org/apache/hadoop/mapreduce/v2/app/job/impl/TaskAttemptImpl.java:600-620 | one iteration changes the launch context and raises exactly as `LocalizeOne` gives |
| DistributedCache.GetFileSizes | mr-client/hadoop-mapreduce-client-app/src/main/java/org/apache/hadoop/mapreduce/v2/app/job/impl/TaskAttemptImpl.java:638-648 | null for a missing key, else the parsed sizes in order or the exception of the first bad string, as `FileSizes` gives |
| DistributedCache.SetupDistributedCache | mr-client/hadoop-mapreduce-client-app/src/main/java/org/apache/hadoop/mapreduce/v2/app/job/impl/TaskAttemptImpl.java:553-571 | archive sizes, then archives, then file sizes, then files: the launch context and the exception are exactly as `Setup` gives |
| TaskAttemptProperties.StepPreservesInvBeforeAssign | mr-client/hadoop-mapreduce-client-app/src/main/java/org/apache/hadoop/mapreduce/v2/app/job/impl/TaskAttemptImpl.java:151-168 | from NEW or UNASSIGNED every event keeps the invariant |
| TaskAttemptProperties.StepPreservesInvAssigned | mr-client/hadoop-mapreduce-client-app/src/main/java/org/apache/hadoop/mapreduce/v2/app/job/impl/TaskAttemptImpl.java:170-182 | from ASSIGNED every event keeps the invariant |
| TaskAttemptProperties.StepPreservesInvRunning | mr-client/hadoop-mapreduce-client-app/src/main/java/org/apache/hadoop/mapreduce/v2/app/job/impl/TaskAttemptImpl.java:184-214 | from RUNNING every event keeps the invariant |
| TaskAttemptProperties.StepPreservesInvCommitPending | mr-client/hadoop-mapreduce-client-app/src/main/java/org/apache/hadoop/mapreduce/v2/app/job/impl/TaskAttemptImpl.java:216-239 | from COMMIT_PENDING every event keeps the invariant |
| TaskAttemptProperties.StepPreservesInvSuccessCleanup | mr-client/hadoop-mapreduce-client-app/src/main/java/org/apache/hadoop/mapreduce/v2/app/job/impl/TaskAttemptImpl.java:241-252 | from SUCCESS_CONTAINER_CLEANUP every event keeps the invariant |
| TaskAttemptProperties.StepPreservesInvContainerCleanup | mr-client/hadoop-mapreduce-client-app/src/main/java/org/apache/hadoop/mapreduce/v2/app/job/impl/TaskAttemptImpl.java:254-287 | from FAIL_CONTAINER_CLEANUP or KILL_CONTAINER_CLEANUP every event keeps the invariant |
| TaskAttemptProperties.StepPreservesInvTaskCleanup | mr-client/hadoop-mapreduce-client-app/src/main/java/org/apache/hadoop/mapreduce/v2/app/job/impl/TaskAttemptImpl.java:289-318 | from FAIL_TASK_CLEANUP or KILL_TASK_CLEANUP every event keeps the invariant |
| TaskAttemptProperties.StepPreservesInvSucceeded | mr-client/hadoop-mapreduce-client-app/src/main/java/org/apache/hadoop/mapreduce/v2/app/job/impl/TaskAttemptImpl.java:320-331 | from SUCCEEDED every event keeps the invariant |
| TaskAttemptProperties.StepPreservesInvFinished | mr-client/hadoop-mapreduce-client-app/src/main/java/org/apache/hadoop/mapreduce/v2/app/job/impl/TaskAttemptImpl.java:333-355 | from FAILED or KILLED every event keeps the invariant |
| TaskAttemptProperties.RunOfThree | mr-client/hadoop-mapreduce-client-app/src/main/java/org/apache/hadoop/mapreduce/v2/app/job/impl/TaskAttemptImpl.java:784-808 | three events in a row are three steps, their messages concatenated |
| TaskAttemptProperties.KillWhileRunningStep | mr-client/hadoop-mapreduce-client-app/src/main/java/org/apache/hadoop/mapreduce/v2/app/job/impl/TaskAttemptImpl.java:212-214 | a kill while RUNNING moves to KILL_CONTAINER_CLEANUP, changes no field and sends exactly the container cleanup's messages |
| TaskAttemptProperties.KilledContainerCleanedStep | mr-client/hadoop-mapreduce-client-app/src/main/java/org/apache/hadoop/mapreduce/v2/app/job/impl/TaskAttemptImpl.java:272-274 | a cleaned container in KILL_CONTAINER_CLEANUP moves to KILL_TASK_CLEANUP and asks only for the task cleanup |
| TaskAttemptProperties.KilledCleanupDoneStep | mr-client/hadoop-mapreduce-client-app/src/main/java/org/apache/hadoop/mapreduce/v2/app/job/impl/TaskAttemptImpl.java:306-308 | a finished task cleanup in KILL_TASK_CLEANUP ends KILLED, with the finish time set as `setFinishTime` does, the unsuccessful-completion record and the notice to the task |
| TaskAttemptProperties.ScheduleStep | mr-client/hadoop-mapreduce-client-app/src/main/java/org/apache/hadoop/mapreduce/v2/app/job/impl/TaskAttemptImpl.java:152-153 | scheduling a NEW attempt moves it to UNASSIGNED and sends +1 to the speculator then the container request for 1024 MB on the data-local hosts and the default rack |
| TaskAttemptProperties.AssignStep | mr-client/hadoop-mapreduce-client-app/src/main/java/org/apache/hadoop/mapreduce/v2/app/job/impl/TaskAttemptImpl.java:160-162 | an assignment in UNASSIGNED moves to ASSIGNED and sends exactly the launch request then -1 to the speculator |
| TaskAttemptProperties.LaunchFailedStep | mr-client/hadoop-mapreduce-client-app/src/main/java/org/apache/hadoop/mapreduce/v2/app/job/impl/TaskAttemptImpl.java:174-176 | a launch failure in ASSIGNED ends FAILED with the finish time set as `setFinishTime` does, and sends exactly the deallocation and the failure notice, without a speculator delta |

## Left out

- Locking: the read/write lock on the attempt is left out, because the model is sequential.
- Logging: left out, because it carries no state the attempt reads.
- Concurrency: the asynchronous dispatch of the events the attempt sends is left out. They are modelled as an ordered outbox.
- `createContainerLaunchContext` and the credentials and tokens it gathers are not part of this model. The same goes for the job's jar and configuration resources, the service data and the environment. Only the distributed-cache part (`setupDistributedCache` and what it calls) is modelled.
- History events: the payloads of the history events is not modelled. The host names, the counters as carried in the event, and the task and attempt ids are left out. A history message records only its kind, the final state and the finish time.
- Counters: conversion between counter types is left out. Counters are an opaque map.
- Progress: it is a floating-point value in the source and an opaque `real` here. No arithmetic is done on it.
- Clock reads: the launch routine reads the clock twice in the source, once for the launch time and once for the speculator event. The model reads it once per `handle` call, so both get the same `now`.
- Status diagnostics: a status update whose diagnostic is null is not modelled, because `Status.diagnosticInfo` is a plain string. In the source this makes the kill and failure routines (lines 1036 and 1097) raise a null pointer exception.
- Event payloads: the casts of the event to its payload class are left out, because each payload is a constructor of `Event`. `Transition`'s contract proves that a payload routine only sits on the event type that carries its payload.
- Messages carry no attempt id. Every message comes from this one attempt.
- `createRemoteTask` and `getPriority` are not modelled. Their results are fixed at construction in `Config`, because they are abstract or depend on the subclass.
- Paths and URIs: Hadoop `Path` normalisation and URI parsing are left out. A URI is modelled as its path and its optional fragment, and the class-path key of a `Path` is taken to be that path.
- DistributedCache.LastComponent: does not normalise the path the way Hadoop's `Path` does. With a trailing '/', as in "hdfs://nn/lib/dir/", Hadoop drops the '/' and stores the artifact under "dir". The model takes the last component to be "", so the artifact raises `EmptyName`. In the same way, a fragment such as "a//b" keeps its doubled '/' in the key, where Hadoop would collapse it to "a/b".
- ParseLong: Unicode digits other than '0'-'9' are not accepted, and JDK 6's rejection of a leading '+' is not modelled.
- Null paths: a null element in the class-path array is not modelled. The array itself may be null.
- The `DistributedCache` configuration getters are not part of this model. Their results are the inputs `CacheConfig`.
- Report: `TaskAttempt.TaskAttemptImpl.Report` and `TaskAttempt.TaskAttemptImpl.IsFinishedNow` are read-only views with no contract of their own. What they return is stated by `TaskAttemptModel.GetReport` and `TaskAttemptTable.FinishedIffAbsorbing`.
