/**
 * The value model of one task attempt: its mutable fields as a record, the events it
 * receives, the messages it sends to its collaborators, the effect of each transition
 * routine, and `Step`, the effect of handling one event. The class in module
 * TaskAttempt is proved to update its fields and its outbox exactly as `Step` says.
 */
module TaskAttemptModel {
  import opened Wrappers
  import opened TaskAttemptTable

  datatype TaskType = MAP | REDUCE

  /** An attempt's identity: the job, the task (with its type) and the attempt ordinal. */
  datatype AttemptId = AttemptId(jobId: int, taskType: TaskType, taskIndex: int, id: int)

  datatype ContainerId = ContainerId(id: int)
  datatype ContainerToken = ContainerToken(identifier: seq<int>)

  /** What the abstract `createRemoteTask()` returns, reduced to what the attempt reads of it. */
  datatype RemoteTask = RemoteTask(jobId: int, isMapTask: bool)

  /** The JVM identity built from the remote task and the container number. */
  datatype JvmId = JvmId(jobId: int, isMap: bool, containerId: int)

  datatype Phase = STARTING | MAP | SHUFFLE | SORT | REDUCE | CLEANUP

  /** Counter groups by name, each holding counter values by name. */
  datatype Counters = Counters(groups: map<string, map<string, int>>)

  /**
   * The status last reported by the remote attempt. Progress is kept opaque.
   * `counters` and `fetchFailedMaps` may be null.
   */
  datatype Status = Status(
    progress: real,
    diagnosticInfo: string,
    phase: Phase,
    stateString: string,
    counters: Option<Counters>,
    fetchFailedMaps: Option<seq<AttemptId>>)

  /**
   * What the constructor fixes: the identity, the memory request, the data-local
   * hosts, and the values of the abstract members `createRemoteTask()` and `getPriority()`.
   */
  datatype Config = Config(
    attemptId: AttemptId,
    memory: int,
    dataLocalHosts: seq<string>,
    remoteTask: RemoteTask,
    priority: int)

  /** The events delivered to `handle`, each with the payload its event class carries. */
  datatype Event =
    | Schedule
    | ContainerAssigned(containerId: ContainerId, containerMgrAddress: string, containerToken: ContainerToken)
    | ContainerLaunched
    | ContainerLaunchFailed
    | Kill
    | FailMsg
    | Update(status: Status)
    | DiagnosticsUpdate(diagnosticInfo: Option<string>)
    | Done
    | CommitPending
    | ContainerCompleted
    | TimedOut
    | ContainerCleaned
    | CleanupDone
    | TooManyFetchFailure
  {
    function Type(): EventType {
      match this
      case Schedule => TA_SCHEDULE
      case ContainerAssigned(_, _, _) => TA_ASSIGNED
      case ContainerLaunched => TA_CONTAINER_LAUNCHED
      case ContainerLaunchFailed => TA_CONTAINER_LAUNCH_FAILED
      case Kill => TA_KILL
      case FailMsg => TA_FAILMSG
      case Update(_) => TA_UPDATE
      case DiagnosticsUpdate(_) => TA_DIAGNOSTICS_UPDATE
      case Done => TA_DONE
      case CommitPending => TA_COMMIT_PENDING
      case ContainerCompleted => TA_CONTAINER_COMPLETED
      case TimedOut => TA_TIMED_OUT
      case ContainerCleaned => TA_CONTAINER_CLEANED
      case CleanupDone => TA_CLEANUP_DONE
      case TooManyFetchFailure => TA_TOO_MANY_FETCH_FAILURE
    }
  }

  /** The events this attempt sends to its parent task. */
  datatype TaskEventType =
    | T_ATTEMPT_LAUNCHED | T_ATTEMPT_COMMIT_PENDING | T_ATTEMPT_SUCCEEDED
    | T_ATTEMPT_FAILED | T_ATTEMPT_KILLED

  /** The history records, reduced to their kind, the state label and the time they carry. */
  datatype HistoryRecord =
    | AttemptStarted(startTime: int)
    | UnsuccessfulCompletion(state: State, finishTime: int)
    | MapAttemptFinished(state: State, finishTime: int)
    | ReduceAttemptFinished(state: State, finishTime: int)

  /**
   * Everything the attempt sends out, in one outbox: the events it passes to its
   * event handler and its calls on the attempt listener. Every message is on behalf
   * of this attempt.
   */
  datatype Msg =
    | SpeculatorPending(delta: int)
    | SpeculatorLaunched(time: int)
    | SpeculatorStatus(status: Status, time: int)
    | ContainerRequest(memory: int, priority: int, hosts: seq<string>, racks: seq<string>)
    | ContainerDeallocate
    | ContainerRemoteLaunch(containerId: ContainerId, containerMgrAddress: string, containerToken: ContainerToken)
    | ContainerRemoteCleanup(cleanupId: Option<ContainerId>, cleanupAddress: Option<string>, cleanupToken: Option<ContainerToken>)
    | ListenerRegister(remoteTask: Option<RemoteTask>, registerJvm: Option<JvmId>)
    | ListenerUnregister(unregisterJvm: Option<JvmId>)
    | History(record: HistoryRecord)
    | ToTask(kind: TaskEventType)
    | TaskCleanup
    | JobFetchFailure(maps: seq<AttemptId>)
    | JobDiagnosticsUpdate(invalidEvent: EventType)
    | JobInternalError

  /** The attempt's mutable fields. `None` is a field still (or again) null. */
  datatype Attempt = Attempt(
    state: State,
    launchTime: int,
    finishTime: int,
    containerId: Option<ContainerId>,
    containerMgrAddress: Option<string>,
    containerToken: Option<ContainerToken>,
    jvmId: Option<JvmId>,
    remoteTask: Option<RemoteTask>,
    reportedStatus: Status,
    diagnostics: seq<string>)

  /** The new fields after a routine and the messages it sent, in order. */
  datatype Effect = Effect(attempt: Attempt, msgs: seq<Msg>)

  /** The rack list of every container request: the default rack only. */
  const Racks: seq<string> := ["/default-rack"]

  /** The diagnostic a TA_TOO_MANY_FETCH_FAILURE appends. */
  const TooManyFetchFailuresMessage: string := "Too Many fetch failures.Failing the attempt"

  /**
   * `getMemoryRequired`: the configured map or reduce memory is read and then
   * discarded; the request is 1024 MB whatever the task type and the configuration.
   */
  function GetMemoryRequired(taskType: TaskType, mapMemoryMb: Option<int>, reduceMemoryMb: Option<int>): (r: int)
    ensures r == 1024
  {
    var memory := match taskType
      case MAP => mapMemoryMb.GetOr(1024)
      case REDUCE => reduceMemoryMb.GetOr(1024);
    1024
  }

  /** `initTaskAttemptStatus`: the status before any report. */
  function InitialStatus(): (st: Status)
    ensures st.progress == 0.0 && st.diagnosticInfo == "" && st.phase == STARTING
    ensures st.stateString == "NEW" && st.counters == Some(Counters(map[]))
  {
    Status(0.0, "", STARTING, "NEW", Some(Counters(map[])), None)
  }

  /** The fields of a freshly constructed attempt. */
  function Initial(): (a: Attempt)
    ensures a.state == NEW && a.launchTime == 0 && a.finishTime == 0
    ensures a.containerId.None? && a.remoteTask.None? && a.diagnostics == []
  {
    Attempt(NEW, 0, 0, None, None, None, None, None, InitialStatus(), [])
  }

  /** `addDiagnosticInfo`: appends the text unless it is null or empty. */
  function AddDiagnosticInfo(diagnostics: seq<string>, diag: Option<string>): (r: seq<string>)
    ensures diag.Some? && diag.value != "" ==> r == diagnostics + [diag.value]
    ensures diag.None? || diag.value == "" ==> r == diagnostics
  {
    if diag.Some? && diag.value != "" then diagnostics + [diag.value] else diagnostics
  }

  /** `setFinishTime`: records the time only if a launch time was recorded. */
  function SetFinishTime(a: Attempt, now: int): (r: Attempt)
    ensures r.launchTime != 0 ==> r.finishTime == now
    ensures r.launchTime == 0 ==> r.finishTime == a.finishTime
    ensures r.(finishTime := a.finishTime) == a
  {
    if a.launchTime != 0 then a.(finishTime := now) else a
  }

  /** `getCounters`: the reported counters, or an empty structure when none were reported. */
  function GetCounters(st: Status): (c: Counters)
    ensures st.counters.Some? ==> c == st.counters.value
    ensures st.counters.None? ==> c.groups == map[]
  {
    match st.counters
    case Some(c) => c
    case None => Counters(map[])
  }

  /** The history record that closes an attempt of the given type. */
  function FinishedRecord(taskType: TaskType, state: State, finishTime: int): HistoryRecord {
    match taskType
    case MAP => MapAttemptFinished(state, finishTime)
    case REDUCE => ReduceAttemptFinished(state, finishTime)
  }

  // ---------------------------------------------------------------------------
  // The effect of each transition routine (the state change is done by Step).
  // ---------------------------------------------------------------------------

  /** RequestContainerTransition: +1 to the speculator, then the container request. */
  function RequestContainerEffect(cfg: Config, a: Attempt): (r: Effect)
    ensures r.attempt == a
  {
    Effect(a, [SpeculatorPending(1), ContainerRequest(cfg.memory, cfg.priority, cfg.dataLocalHosts, Racks)])
  }

  /**
   * ContainerAssignedTransition: records the container, creates the remote task and
   * the JVM id, asks for the launch, then tells the speculator -1.
   */
  function ContainerAssignedEffect(cfg: Config, a: Attempt, c: ContainerId, address: string, token: ContainerToken): (r: Effect)
    ensures r.attempt.remoteTask == Some(cfg.remoteTask)
    ensures r.attempt.launchTime == a.launchTime && r.attempt.finishTime == a.finishTime
  {
    var a' := a.(containerId := Some(c), containerMgrAddress := Some(address),
                 containerToken := Some(token), remoteTask := Some(cfg.remoteTask),
                 jvmId := Some(JvmId(cfg.remoteTask.jobId, cfg.remoteTask.isMapTask, c.id)));
    Effect(a', [ContainerRemoteLaunch(c, address, token), SpeculatorPending(-1)])
  }

  /**
   * DeallocateContainerTransition: sets the finish time, releases the container
   * request, withdraws the speculator's pending request if asked to, and tells the
   * task the attempt failed or was killed.
   */
  function DeallocateContainerEffect(a: Attempt, finalState: State, withdraws: bool, now: int): (r: Effect)
    ensures r.attempt == SetFinishTime(a, now)
  {
    var told := match finalState
      case FAILED => [ToTask(T_ATTEMPT_FAILED)]
      case KILLED => [ToTask(T_ATTEMPT_KILLED)]
      case _ => [];
    Effect(SetFinishTime(a, now),
           [ContainerDeallocate] + (if withdraws then [SpeculatorPending(-1)] else []) + told)
  }

  /**
   * LaunchedContainerTransition: sets the launch time, registers the remote task
   * with the listener, records the start, tells the speculator, drops the remote
   * task and tells the task the attempt was launched.
   */
  function LaunchedContainerEffect(a: Attempt, now: int): (r: Effect)
    ensures r.attempt.launchTime == now && r.attempt.remoteTask.None?
    ensures |r.msgs| == 4 && r.msgs[0] == ListenerRegister(a.remoteTask, a.jvmId)
  {
    Effect(a.(launchTime := now, remoteTask := None),
           [ListenerRegister(a.remoteTask, a.jvmId), History(AttemptStarted(now)),
            SpeculatorLaunched(now), ToTask(T_ATTEMPT_LAUNCHED)])
  }

  /** CommitPendingTransition: tells the task only. */
  function CommitPendingEffect(a: Attempt): (r: Effect)
    ensures r.attempt == a
  {
    Effect(a, [ToTask(T_ATTEMPT_COMMIT_PENDING)])
  }

  /** TaskCleanupTransition: asks for the task-level cleanup only. */
  function TaskCleanupEffect(a: Attempt): (r: Effect)
    ensures r.attempt == a
  {
    Effect(a, [TaskCleanup])
  }

  /** SucceededTransition: sets the finish time, records the finish, tells the task. */
  function SucceededEffect(cfg: Config, a: Attempt, now: int): (r: Effect)
    ensures r.attempt == SetFinishTime(a, now)
  {
    var a' := SetFinishTime(a, now);
    Effect(a', [History(FinishedRecord(cfg.attemptId.taskType, SUCCEEDED, a'.finishTime)),
                ToTask(T_ATTEMPT_SUCCEEDED)])
  }

  /**
   * FailedTransition: sets the finish time, records the unsuccessful completion and
   * the finish, tells the task.
   */
  function FailedEffect(cfg: Config, a: Attempt, now: int): (r: Effect)
    ensures r.attempt == SetFinishTime(a, now)
  {
    var a' := SetFinishTime(a, now);
    Effect(a', [History(UnsuccessfulCompletion(FAILED, a'.finishTime)),
                History(FinishedRecord(cfg.attemptId.taskType, FAILED, a'.finishTime)),
                ToTask(T_ATTEMPT_FAILED)])
  }

  /** TooManyFetchFailureTransition: appends the diagnostic, sets the finish time, tells the task. */
  function TooManyFetchFailureEffect(a: Attempt, now: int): (r: Effect)
    ensures r.attempt.diagnostics == a.diagnostics + [TooManyFetchFailuresMessage]
  {
    var a' := a.(diagnostics := AddDiagnosticInfo(a.diagnostics, Some(TooManyFetchFailuresMessage)));
    Effect(SetFinishTime(a', now), [ToTask(T_ATTEMPT_FAILED)])
  }

  /** KilledTransition: sets the finish time, records the unsuccessful completion, tells the task. */
  function KilledEffect(a: Attempt, now: int): (r: Effect)
    ensures r.attempt == SetFinishTime(a, now)
  {
    var a' := SetFinishTime(a, now);
    Effect(a', [History(UnsuccessfulCompletion(KILLED, a'.finishTime)), ToTask(T_ATTEMPT_KILLED)])
  }

  /** CleanupContainerTransition: unregisters from the listener, asks for the container cleanup. */
  function CleanupContainerEffect(a: Attempt): (r: Effect)
    ensures r.attempt == a
  {
    Effect(a, [ListenerUnregister(a.jvmId),
               ContainerRemoteCleanup(a.containerId, a.containerMgrAddress, a.containerToken)])
  }

  /** Whether a status reports fetch failures: the list is non-null and non-empty. */
  predicate HasFetchFailures(st: Status) {
    st.fetchFailedMaps.Some? && |st.fetchFailedMaps.value| > 0
  }

  /**
   * StatusUpdater: replaces the reported status, forwards it to the speculator,
   * appends its diagnostic, and reports fetch failures to the job if there are any.
   */
  function StatusUpdaterEffect(a: Attempt, st: Status, now: int): (r: Effect)
    ensures r.attempt.reportedStatus == st
  {
    var a' := a.(reportedStatus := st, diagnostics := AddDiagnosticInfo(a.diagnostics, Some(st.diagnosticInfo)));
    Effect(a', [SpeculatorStatus(st, now)]
               + (if HasFetchFailures(st) then [JobFetchFailure(st.fetchFailedMaps.value)] else []))
  }

  /** DiagnosticInformationUpdater: appends the diagnostic only. */
  function DiagnosticInformationUpdaterEffect(a: Attempt, diag: Option<string>): (r: Effect)
    ensures r.msgs == []
  {
    Effect(a.(diagnostics := AddDiagnosticInfo(a.diagnostics, diag)), [])
  }

  /** The effect of the routine an arc names, applied to the event it was taken for. */
  function HookEffect(cfg: Config, a: Attempt, hook: Hook, e: Event, now: int): Effect
    requires hook.ContainerAssignedTransition? ==> e.ContainerAssigned?
    requires hook.StatusUpdater? ==> e.Update?
    requires hook.DiagnosticInformationUpdater? ==> e.DiagnosticsUpdate?
  {
    match hook
    case RequestContainerTransition => RequestContainerEffect(cfg, a)
    case ContainerAssignedTransition =>
      ContainerAssignedEffect(cfg, a, e.containerId, e.containerMgrAddress, e.containerToken)
    case DeallocateContainerTransition(finalState, withdraws) =>
      DeallocateContainerEffect(a, finalState, withdraws, now)
    case LaunchedContainerTransition => LaunchedContainerEffect(a, now)
    case CommitPendingTransition => CommitPendingEffect(a)
    case TaskCleanupTransition => TaskCleanupEffect(a)
    case SucceededTransition => SucceededEffect(cfg, a, now)
    case FailedTransition => FailedEffect(cfg, a, now)
    case TooManyFetchFailureTransition => TooManyFetchFailureEffect(a, now)
    case KilledTransition => KilledEffect(a, now)
    case CleanupContainerTransition => CleanupContainerEffect(a)
    case StatusUpdater => StatusUpdaterEffect(a, e.status, now)
    case DiagnosticInformationUpdater => DiagnosticInformationUpdaterEffect(a, e.diagnosticInfo)
    case Ignore => Effect(a, [])
  }

  /** The two messages an invalid event produces: a diagnostics update, then an internal error. */
  function InvalidEventMsgs(t: EventType): seq<Msg> {
    [JobDiagnosticsUpdate(t), JobInternalError]
  }

  /**
   * `handle`: looks the event up in the table. Without an arc the fields stay as they
   * are and the job is told; with one, the routine runs and the state becomes the
   * arc's target. `now` is the clock.
   */
  function Step(cfg: Config, a: Attempt, e: Event, now: int): (r: Effect)
    ensures Next(a.state, e.Type()).None? ==> r.attempt == a && r.msgs == InvalidEventMsgs(e.Type())
    ensures Next(a.state, e.Type()).Some? ==> r.attempt.state == Next(a.state, e.Type()).value
  {
    match Transition(a.state, e.Type())
    case None => Effect(a, InvalidEventMsgs(e.Type()))
    case Some(arc) =>
      var eff := HookEffect(cfg, a, arc.hook, e, now);
      Effect(eff.attempt.(state := arc.target), eff.msgs)
  }

  /** An event together with the clock reading at its delivery. */
  datatype Timed = Timed(event: Event, time: int)

  /** Handling a sequence of events in order: the final fields and all messages sent. */
  function Run(cfg: Config, a: Attempt, events: seq<Timed>): (r: Effect)
    decreases |events|
  {
    if events == [] then Effect(a, [])
    else
      var prev := Run(cfg, a, events[..|events| - 1]);
      var last := events[|events| - 1];
      var step := Step(cfg, prev.attempt, last.event, last.time);
      Effect(step.attempt, prev.msgs + step.msgs)
  }

  /** `getReport`: the local state, the launch and finish times, and the reported status. */
  datatype Report = Report(
    id: AttemptId, state: State, progress: real, startTime: int, finishTime: int,
    diagnosticInfo: string, phase: Phase, stateString: string, counters: Counters)

  function GetReport(cfg: Config, a: Attempt): (r: Report)
    ensures r.state == a.state && r.startTime == a.launchTime && r.finishTime == a.finishTime
    ensures r.counters == GetCounters(a.reportedStatus)
  {
    var st := a.reportedStatus;
    Report(cfg.attemptId, a.state, st.progress, a.launchTime, a.finishTime,
           st.diagnosticInfo, st.phase, st.stateString, GetCounters(st))
  }
}
