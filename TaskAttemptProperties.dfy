/**
 * What the transition table and the routines promise, proved about `Step` and `Run`:
 * invalid events, ignored events, which arc may write which field, the finish-time
 * guard, the diagnostics log, status replacement, the speculator's pending count,
 * and the invariant that ties the fields to the state.
 */
module TaskAttemptProperties {
  import opened Wrappers
  import opened TaskAttemptTable
  import opened TaskAttemptModel

  // ---------------------------------------------------------------------------
  // Invalid and ignored events
  // ---------------------------------------------------------------------------

  /**
   * An event with no arc leaves every field as it was and sends exactly a diagnostics
   * update and then an internal error to the job; an event with an arc never sends
   * an internal error.
   */
  lemma InvalidEventReported(cfg: Config, a: Attempt, e: Event, now: int)
    ensures Next(a.state, e.Type()).None? ==>
      Step(cfg, a, e, now) == Effect(a, [JobDiagnosticsUpdate(e.Type()), JobInternalError])
    ensures JobInternalError in Step(cfg, a, e, now).msgs <==> Next(a.state, e.Type()).None?
  {
    match Transition(a.state, e.Type())
    case None =>
      assert Step(cfg, a, e, now).msgs[1] == JobInternalError;
    case Some(arc) =>
      StepAlong(cfg, a, e, now, arc);
      NoInternalErrorFromHook(cfg, a, arc.hook, e, now);
  }

  /** No routine raises an internal error. */
  lemma NoInternalErrorFromHook(cfg: Config, a: Attempt, hook: Hook, e: Event, now: int)
    requires hook.ContainerAssignedTransition? ==> e.ContainerAssigned?
    requires hook.StatusUpdater? ==> e.Update?
    requires hook.DiagnosticInformationUpdater? ==> e.DiagnosticsUpdate?
    ensures JobInternalError !in HookEffect(cfg, a, hook, e, now).msgs
  {
  }

  /** An ignored event is a self-loop that changes no field and sends nothing. */
  lemma IgnoredEventIsNoOp(cfg: Config, a: Attempt, e: Event, now: int)
    requires Transition(a.state, e.Type()) == Some(Arc(a.state, Ignore))
    ensures Step(cfg, a, e, now) == Effect(a, [])
  {
  }

  /**
   * TA_TIMED_OUT is ignored in FAIL_CONTAINER_CLEANUP but invalid in FAIL_TASK_CLEANUP,
   * where it is reported to the job.
   */
  lemma TimedOutAfterFailure(cfg: Config, a: Attempt, now: int)
    ensures a.state == FAIL_CONTAINER_CLEANUP ==> Step(cfg, a, TimedOut, now) == Effect(a, [])
    ensures a.state == FAIL_TASK_CLEANUP ==>
      Step(cfg, a, TimedOut, now) == Effect(a, [JobDiagnosticsUpdate(TA_TIMED_OUT), JobInternalError])
  {
  }

  /** TA_TOO_MANY_FETCH_FAILURE while RUNNING is invalid: state unchanged, job told. */
  lemma FetchFailureWhileRunningInvalid(cfg: Config, a: Attempt, now: int)
    requires a.state == RUNNING
    ensures Step(cfg, a, TooManyFetchFailure, now) ==
      Effect(a, [JobDiagnosticsUpdate(TA_TOO_MANY_FETCH_FAILURE), JobInternalError])
  {
  }

  // ---------------------------------------------------------------------------
  // The invariant tying the fields to the state
  // ---------------------------------------------------------------------------

  /**
   * Before a container is assigned no container field is set; from ASSIGNED on the
   * container fields are set together; the launch time is still zero before RUNNING;
   * the remote task exists from ASSIGNED until the launch; a zero launch time means a
   * zero finish time; no diagnostic is empty.
   */
  predicate Inv(a: Attempt) {
    && (a.state in {NEW, UNASSIGNED} ==> a.containerId.None? && a.remoteTask.None?)
    && (a.state in {NEW, UNASSIGNED, ASSIGNED} ==> a.launchTime == 0)
    && (a.state == ASSIGNED ==> a.remoteTask.Some?)
    && (a.state !in {NEW, UNASSIGNED, FAILED, KILLED} ==> a.containerId.Some?)
    && (a.state in {RUNNING, COMMIT_PENDING, SUCCESS_CONTAINER_CLEANUP, SUCCEEDED} ==> a.remoteTask.None?)
    && (a.containerId.Some? <==> a.containerMgrAddress.Some?)
    && (a.containerId.Some? <==> a.containerToken.Some?)
    && (a.containerId.Some? <==> a.jvmId.Some?)
    && (a.remoteTask.Some? ==> a.containerId.Some?)
    && (a.launchTime == 0 ==> a.finishTime == 0)
    && (forall k :: 0 <= k < |a.diagnostics| ==> a.diagnostics[k] != "")
  }

  lemma InitialInv()
    ensures Inv(Initial())
  {
  }

  /** No event adds an empty diagnostic. */
  lemma DiagnosticsStayNonEmpty(cfg: Config, a: Attempt, e: Event, now: int)
    requires forall k :: 0 <= k < |a.diagnostics| ==> a.diagnostics[k] != ""
    ensures var d := Step(cfg, a, e, now).attempt.diagnostics;
      forall k :: 0 <= k < |d| ==> d[k] != ""
  {
    var d := Step(cfg, a, e, now).attempt.diagnostics;
    DiagnosticsAppendOnly(cfg, a, e, now);
    forall k | 0 <= k < |d| ensures d[k] != "" {
      if k < |a.diagnostics| {
        assert d[k] == a.diagnostics[k];
      }
    }
  }

  // The next nine lemmas preserve the invariant from one group of source states each;
  // StepPreservesInv below puts them together.

  lemma StepPreservesInvBeforeAssign(cfg: Config, a: Attempt, e: Event, now: int)
    requires Inv(a) && a.state in {NEW, UNASSIGNED}
    ensures Inv(Step(cfg, a, e, now).attempt)
  {
    DiagnosticsStayNonEmpty(cfg, a, e, now);
    match Transition(a.state, e.Type())
    case None =>
    case Some(arc) => StepAlong(cfg, a, e, now, arc);
  }

  lemma StepPreservesInvAssigned(cfg: Config, a: Attempt, e: Event, now: int)
    requires Inv(a) && a.state == ASSIGNED
    ensures Inv(Step(cfg, a, e, now).attempt)
  {
    DiagnosticsStayNonEmpty(cfg, a, e, now);
    match Transition(a.state, e.Type())
    case None =>
    case Some(arc) => StepAlong(cfg, a, e, now, arc);
  }

  lemma StepPreservesInvRunning(cfg: Config, a: Attempt, e: Event, now: int)
    requires Inv(a) && a.state == RUNNING
    ensures Inv(Step(cfg, a, e, now).attempt)
  {
    DiagnosticsStayNonEmpty(cfg, a, e, now);
    match Transition(a.state, e.Type())
    case None =>
    case Some(arc) => StepAlong(cfg, a, e, now, arc);
  }

  lemma StepPreservesInvCommitPending(cfg: Config, a: Attempt, e: Event, now: int)
    requires Inv(a) && a.state == COMMIT_PENDING
    ensures Inv(Step(cfg, a, e, now).attempt)
  {
    DiagnosticsStayNonEmpty(cfg, a, e, now);
    match Transition(a.state, e.Type())
    case None =>
    case Some(arc) => StepAlong(cfg, a, e, now, arc);
  }

  lemma StepPreservesInvSuccessCleanup(cfg: Config, a: Attempt, e: Event, now: int)
    requires Inv(a) && a.state == SUCCESS_CONTAINER_CLEANUP
    ensures Inv(Step(cfg, a, e, now).attempt)
  {
    DiagnosticsStayNonEmpty(cfg, a, e, now);
    match Transition(a.state, e.Type())
    case None =>
    case Some(arc) => StepAlong(cfg, a, e, now, arc);
  }

  lemma StepPreservesInvContainerCleanup(cfg: Config, a: Attempt, e: Event, now: int)
    requires Inv(a) && a.state in {FAIL_CONTAINER_CLEANUP, KILL_CONTAINER_CLEANUP}
    ensures Inv(Step(cfg, a, e, now).attempt)
  {
    DiagnosticsStayNonEmpty(cfg, a, e, now);
    match Transition(a.state, e.Type())
    case None =>
    case Some(arc) => StepAlong(cfg, a, e, now, arc);
  }

  lemma StepPreservesInvTaskCleanup(cfg: Config, a: Attempt, e: Event, now: int)
    requires Inv(a) && a.state in {FAIL_TASK_CLEANUP, KILL_TASK_CLEANUP}
    ensures Inv(Step(cfg, a, e, now).attempt)
  {
    DiagnosticsStayNonEmpty(cfg, a, e, now);
    match Transition(a.state, e.Type())
    case None =>
    case Some(arc) => StepAlong(cfg, a, e, now, arc);
  }

  lemma StepPreservesInvSucceeded(cfg: Config, a: Attempt, e: Event, now: int)
    requires Inv(a) && a.state == SUCCEEDED
    ensures Inv(Step(cfg, a, e, now).attempt)
  {
    DiagnosticsStayNonEmpty(cfg, a, e, now);
    match Transition(a.state, e.Type())
    case None =>
    case Some(arc) => StepAlong(cfg, a, e, now, arc);
  }

  lemma StepPreservesInvFinished(cfg: Config, a: Attempt, e: Event, now: int)
    requires Inv(a) && a.state in {FAILED, KILLED}
    ensures Inv(Step(cfg, a, e, now).attempt)
  {
    DiagnosticsStayNonEmpty(cfg, a, e, now);
    match Transition(a.state, e.Type())
    case None =>
    case Some(arc) => StepAlong(cfg, a, e, now, arc);
  }

  /** Every event, valid or not, preserves the invariant. */
  lemma StepPreservesInv(cfg: Config, a: Attempt, e: Event, now: int)
    requires Inv(a)
    ensures Inv(Step(cfg, a, e, now).attempt)
  {
    match a.state
    case NEW | UNASSIGNED => StepPreservesInvBeforeAssign(cfg, a, e, now);
    case ASSIGNED => StepPreservesInvAssigned(cfg, a, e, now);
    case RUNNING => StepPreservesInvRunning(cfg, a, e, now);
    case COMMIT_PENDING => StepPreservesInvCommitPending(cfg, a, e, now);
    case SUCCESS_CONTAINER_CLEANUP => StepPreservesInvSuccessCleanup(cfg, a, e, now);
    case FAIL_CONTAINER_CLEANUP | KILL_CONTAINER_CLEANUP => StepPreservesInvContainerCleanup(cfg, a, e, now);
    case FAIL_TASK_CLEANUP | KILL_TASK_CLEANUP => StepPreservesInvTaskCleanup(cfg, a, e, now);
    case SUCCEEDED => StepPreservesInvSucceeded(cfg, a, e, now);
    case FAILED | KILLED => StepPreservesInvFinished(cfg, a, e, now);
  }

  /** The invariant holds after any sequence of events from a state where it holds. */
  lemma {:induction false} RunPreservesInv(cfg: Config, a: Attempt, events: seq<Timed>)
    requires Inv(a)
    ensures Inv(Run(cfg, a, events).attempt)
    decreases |events|
  {
    if events != [] {
      var prefix := events[..|events| - 1];
      RunPreservesInv(cfg, a, prefix);
      var last := events[|events| - 1];
      StepPreservesInv(cfg, Run(cfg, a, prefix).attempt, last.event, last.time);
    }
  }

  /** In a reachable state a container cleanup request always names the container. */
  lemma CleanupNamesContainer(cfg: Config, a: Attempt, e: Event, now: int, m: Msg)
    requires Inv(a)
    requires m in Step(cfg, a, e, now).msgs && m.ContainerRemoteCleanup?
    ensures m.cleanupId.Some? && m.cleanupAddress.Some? && m.cleanupToken.Some?
    ensures m.cleanupId == a.containerId
  {
    CleanupOnlyFromContainerStates(cfg, a, e, now, m);
  }

  /** Only the cleanup routine sends a container cleanup, and it names the attempt's own container. */
  lemma CleanupOnlyFromCleanupHook(cfg: Config, a: Attempt, hook: Hook, e: Event, now: int, m: Msg)
    requires hook.ContainerAssignedTransition? ==> e.ContainerAssigned?
    requires hook.StatusUpdater? ==> e.Update?
    requires hook.DiagnosticInformationUpdater? ==> e.DiagnosticsUpdate?
    requires m in HookEffect(cfg, a, hook, e, now).msgs && m.ContainerRemoteCleanup?
    ensures hook == CleanupContainerTransition
    ensures m == ContainerRemoteCleanup(a.containerId, a.containerMgrAddress, a.containerToken)
  {
  }

  /** A container cleanup is sent only from ASSIGNED, RUNNING or COMMIT_PENDING. */
  lemma CleanupOnlyFromContainerStates(cfg: Config, a: Attempt, e: Event, now: int, m: Msg)
    requires m in Step(cfg, a, e, now).msgs && m.ContainerRemoteCleanup?
    ensures a.state in {ASSIGNED, RUNNING, COMMIT_PENDING}
    ensures m == ContainerRemoteCleanup(a.containerId, a.containerMgrAddress, a.containerToken)
  {
    match Transition(a.state, e.Type())
    case None =>
    case Some(arc) =>
      StepAlong(cfg, a, e, now, arc);
      CleanupOnlyFromCleanupHook(cfg, a, arc.hook, e, now, m);
  }

  // ---------------------------------------------------------------------------
  // Which arc writes which field
  // ---------------------------------------------------------------------------

  /**
   * The launch time changes only on ASSIGNED --TA_CONTAINER_LAUNCHED--> RUNNING,
   * which sets it to the clock and drops the remote task.
   */
  lemma LaunchTimeOnlyOnLaunch(cfg: Config, a: Attempt, e: Event, now: int)
    ensures Step(cfg, a, e, now).attempt.launchTime != a.launchTime ==>
      a.state == ASSIGNED && e.ContainerLaunched?
    ensures a.state == ASSIGNED && e.ContainerLaunched? ==>
      var r := Step(cfg, a, e, now).attempt;
      r.state == RUNNING && r.launchTime == now && r.remoteTask.None?
  {
    match Transition(a.state, e.Type())
    case None =>
    case Some(arc) =>
      StepAlong(cfg, a, e, now, arc);
      LaunchTimeOnlyByLaunchHook(cfg, a, arc.hook, e, now);
      AssignAndLaunchSites(a.state, e.Type());
      if a.state == ASSIGNED && e.ContainerLaunched? {
        assert arc == Arc(RUNNING, LaunchedContainerTransition);
      }
  }

  /** Of all routines, only LaunchedContainerTransition writes the launch time. */
  lemma LaunchTimeOnlyByLaunchHook(cfg: Config, a: Attempt, hook: Hook, e: Event, now: int)
    requires hook.ContainerAssignedTransition? ==> e.ContainerAssigned?
    requires hook.StatusUpdater? ==> e.Update?
    requires hook.DiagnosticInformationUpdater? ==> e.DiagnosticsUpdate?
    ensures HookEffect(cfg, a, hook, e, now).attempt.launchTime != a.launchTime ==>
      hook == LaunchedContainerTransition
  {
  }

  /**
   * The container id, manager address, token and JVM id change only on
   * UNASSIGNED --TA_ASSIGNED--> ASSIGNED, which sets them from the event, creates the
   * remote task, asks for the launch and tells the speculator -1.
   */
  lemma ContainerFieldsOnlyOnAssign(cfg: Config, a: Attempt, e: Event, now: int)
    ensures var r := Step(cfg, a, e, now).attempt;
      (r.containerId != a.containerId || r.containerMgrAddress != a.containerMgrAddress
       || r.containerToken != a.containerToken || r.jvmId != a.jvmId) ==>
      a.state == UNASSIGNED && e.ContainerAssigned?
    ensures a.state == UNASSIGNED && e.ContainerAssigned? ==>
      var r := Step(cfg, a, e, now);
      && r.attempt.state == ASSIGNED
      && r.attempt.containerId == Some(e.containerId)
      && r.attempt.containerMgrAddress == Some(e.containerMgrAddress)
      && r.attempt.containerToken == Some(e.containerToken)
      && r.attempt.remoteTask == Some(cfg.remoteTask)
      && r.msgs == [ContainerRemoteLaunch(e.containerId, e.containerMgrAddress, e.containerToken),
                    SpeculatorPending(-1)]
  {
    match Transition(a.state, e.Type())
    case None =>
    case Some(arc) =>
      StepAlong(cfg, a, e, now, arc);
      ContainerFieldsOnlyByAssignHook(cfg, a, arc.hook, e, now);
      AssignAndLaunchSites(a.state, e.Type());
  }

  /** Of all routines, only ContainerAssignedTransition writes the container fields. */
  lemma ContainerFieldsOnlyByAssignHook(cfg: Config, a: Attempt, hook: Hook, e: Event, now: int)
    requires hook.ContainerAssignedTransition? ==> e.ContainerAssigned?
    requires hook.StatusUpdater? ==> e.Update?
    requires hook.DiagnosticInformationUpdater? ==> e.DiagnosticsUpdate?
    ensures var r := HookEffect(cfg, a, hook, e, now).attempt;
      (r.containerId != a.containerId || r.containerMgrAddress != a.containerMgrAddress
       || r.containerToken != a.containerToken || r.jvmId != a.jvmId) ==>
      hook == ContainerAssignedTransition
  {
  }

  /** The remote task is written only when the container is assigned and when it is launched. */
  lemma RemoteTaskOnlyOnAssignOrLaunch(cfg: Config, a: Attempt, e: Event, now: int)
    ensures Step(cfg, a, e, now).attempt.remoteTask != a.remoteTask ==>
      (a.state == UNASSIGNED && e.ContainerAssigned?) || (a.state == ASSIGNED && e.ContainerLaunched?)
  {
    match Transition(a.state, e.Type())
    case None =>
    case Some(arc) =>
      StepAlong(cfg, a, e, now, arc);
      RemoteTaskOnlyByAssignOrLaunchHook(cfg, a, arc.hook, e, now);
      AssignAndLaunchSites(a.state, e.Type());
  }

  /** Of all routines, only the assignment and the launch write the remote task. */
  lemma RemoteTaskOnlyByAssignOrLaunchHook(cfg: Config, a: Attempt, hook: Hook, e: Event, now: int)
    requires hook.ContainerAssignedTransition? ==> e.ContainerAssigned?
    requires hook.StatusUpdater? ==> e.Update?
    requires hook.DiagnosticInformationUpdater? ==> e.DiagnosticsUpdate?
    ensures HookEffect(cfg, a, hook, e, now).attempt.remoteTask != a.remoteTask ==>
      hook in {ContainerAssignedTransition, LaunchedContainerTransition}
  {
  }

  /** `setFinishTime`'s guard, seen through `handle`: the finish time moves only to the clock, and only after a launch. */
  lemma FinishTimeGuard(cfg: Config, a: Attempt, e: Event, now: int)
    ensures var r := Step(cfg, a, e, now).attempt;
      r.finishTime != a.finishTime ==> a.launchTime != 0 && r.finishTime == now
  {
  }

  /**
   * An attempt that never launched keeps a zero finish time: whatever event arrives
   * in NEW, UNASSIGNED or ASSIGNED (for instance a launch failure, a kill or a failure
   * leading to FAILED or KILLED), the finish time stays zero.
   */
  lemma NoFinishTimeWithoutLaunch(cfg: Config, a: Attempt, e: Event, now: int)
    requires Inv(a) && a.state in {NEW, UNASSIGNED, ASSIGNED}
    ensures Step(cfg, a, e, now).attempt.finishTime == 0
  {
  }

  /**
   * The finish time can be written twice: once when the container is cleaned after
   * success, and again when too many fetch failures turn SUCCEEDED into FAILED.
   */
  lemma FinishTimeWrittenTwice(cfg: Config, a: Attempt, t1: int, t2: int)
    requires a.state == SUCCESS_CONTAINER_CLEANUP && a.launchTime != 0
    ensures var s1 := Step(cfg, a, ContainerCleaned, t1).attempt;
      var s2 := Step(cfg, s1, TooManyFetchFailure, t2).attempt;
      s1.state == SUCCEEDED && s1.finishTime == t1 && s2.state == FAILED && s2.finishTime == t2
  {
    SucceededStep(cfg, a, t1);
    var s1 := Step(cfg, a, ContainerCleaned, t1).attempt;
    TooManyFetchFailureStep(cfg, s1, t2);
  }

  /** The container is cleaned after success: the attempt is SUCCEEDED. */
  lemma SucceededStep(cfg: Config, a: Attempt, now: int)
    requires a.state == SUCCESS_CONTAINER_CLEANUP
    ensures Step(cfg, a, ContainerCleaned, now)
            == Effect(SucceededEffect(cfg, a, now).attempt.(state := SUCCEEDED), SucceededEffect(cfg, a, now).msgs)
  {
    StepAlong(cfg, a, ContainerCleaned, now, Arc(SUCCEEDED, SucceededTransition));
  }

  /** Too many fetch failures after success: the attempt is FAILED. */
  lemma TooManyFetchFailureStep(cfg: Config, a: Attempt, now: int)
    requires a.state == SUCCEEDED
    ensures Step(cfg, a, TooManyFetchFailure, now)
            == Effect(TooManyFetchFailureEffect(a, now).attempt.(state := FAILED), TooManyFetchFailureEffect(a, now).msgs)
  {
    StepAlong(cfg, a, TooManyFetchFailure, now, Arc(FAILED, TooManyFetchFailureTransition));
  }

  // ---------------------------------------------------------------------------
  // Diagnostics and reported status
  // ---------------------------------------------------------------------------

  /** The diagnostics log only grows, by at most one non-empty entry per event, keeping its order. */
  lemma DiagnosticsAppendOnly(cfg: Config, a: Attempt, e: Event, now: int)
    ensures var d := Step(cfg, a, e, now).attempt.diagnostics;
      a.diagnostics <= d && |d| <= |a.diagnostics| + 1
      && forall k :: |a.diagnostics| <= k < |d| ==> d[k] != ""
  {
  }

  /**
   * A status update while RUNNING or COMMIT_PENDING replaces the reported status
   * wholesale, appends its diagnostic unless empty, changes no other field, forwards
   * the status to the speculator, and reports fetch failures exactly when some are listed.
   */
  lemma StatusUpdateReplaces(cfg: Config, a: Attempt, st: Status, now: int)
    requires a.state in {RUNNING, COMMIT_PENDING}
    ensures var r := Step(cfg, a, Update(st), now);
      && r.attempt == a.(reportedStatus := st,
                         diagnostics := if st.diagnosticInfo == "" then a.diagnostics
                                        else a.diagnostics + [st.diagnosticInfo])
      && r.msgs[0] == SpeculatorStatus(st, now)
      && ((exists m | m in r.msgs :: m.JobFetchFailure?) <==> HasFetchFailures(st))
  {
    var r := Step(cfg, a, Update(st), now);
    if HasFetchFailures(st) {
      assert r.msgs[1].JobFetchFailure?;
    } else {
      assert r.msgs == [SpeculatorStatus(st, now)];
    }
  }

  /** Only a status update while RUNNING or COMMIT_PENDING changes the reported status. */
  lemma StatusOnlyReplacedByUpdate(cfg: Config, a: Attempt, e: Event, now: int)
    ensures Step(cfg, a, e, now).attempt.reportedStatus != a.reportedStatus ==>
      e.Update? && a.state in {RUNNING, COMMIT_PENDING}
  {
  }

  /** A status written by an update is what a report returns until the next update. */
  lemma {:induction false} StatusKeptUntilNextUpdate(cfg: Config, a: Attempt, events: seq<Timed>)
    requires forall i :: 0 <= i < |events| ==> !events[i].event.Update?
    ensures Run(cfg, a, events).attempt.reportedStatus == a.reportedStatus
    decreases |events|
  {
    if events != [] {
      var prefix := events[..|events| - 1];
      StatusKeptUntilNextUpdate(cfg, a, prefix);
      var last := events[|events| - 1];
      StatusOnlyReplacedByUpdate(cfg, Run(cfg, a, prefix).attempt, last.event, last.time);
    }
  }

  /**
   * The report after a status update carries the new status's progress, diagnostic,
   * phase, state string and counters, but the attempt's own state, whatever state
   * string the remote side reported.
   */
  lemma ReportAfterUpdate(cfg: Config, a: Attempt, st: Status, now: int)
    requires a.state in {RUNNING, COMMIT_PENDING}
    ensures var rep := GetReport(cfg, Step(cfg, a, Update(st), now).attempt);
      && rep.state == a.state && rep.progress == st.progress
      && rep.diagnosticInfo == st.diagnosticInfo && rep.phase == st.phase
      && rep.stateString == st.stateString && rep.counters == GetCounters(st)
      && rep.startTime == a.launchTime && rep.finishTime == a.finishTime
  {
    StatusUpdateReplaces(cfg, a, st, now);
  }

  /** The report of a new attempt: state NEW, no times, progress zero, phase STARTING, no counters. */
  lemma InitialReport(cfg: Config)
    ensures var rep := GetReport(cfg, Initial());
      rep.state == NEW && rep.startTime == 0 && rep.finishTime == 0 && rep.progress == 0.0
      && rep.phase == STARTING && rep.diagnosticInfo == "" && rep.counters.groups == map[]
  {
  }

  /**
   * Too many fetch failures after success: FAILED, the fixed diagnostic appended, the
   * finish time reset if the attempt was launched, and only the task is told.
   */
  lemma TooManyFetchFailureFails(cfg: Config, a: Attempt, now: int)
    requires a.state == SUCCEEDED
    ensures var r := Step(cfg, a, TooManyFetchFailure, now);
      && r.attempt.state == FAILED
      && r.attempt.diagnostics == a.diagnostics + ["Too Many fetch failures.Failing the attempt"]
      && r.attempt.finishTime == (if a.launchTime != 0 then now else a.finishTime)
      && r.msgs == [ToTask(T_ATTEMPT_FAILED)]
  {
  }

  // ---------------------------------------------------------------------------
  // The speculator's pending container requests
  // ---------------------------------------------------------------------------

  /** The net sum of the pending-request deltas sent to the speculator. */
  function PendingDelta(msgs: seq<Msg>): int
    decreases |msgs|
  {
    if msgs == [] then 0
    else
      var m := msgs[|msgs| - 1];
      PendingDelta(msgs[..|msgs| - 1]) + (if m.SpeculatorPending? then m.delta else 0)
  }

  lemma {:induction false} PendingDeltaConcat(xs: seq<Msg>, ys: seq<Msg>)
    ensures PendingDelta(xs + ys) == PendingDelta(xs) + PendingDelta(ys)
    decreases |ys|
  {
    if ys == [] {
      assert xs + ys == xs;
    } else {
      var ys' := ys[..|ys| - 1];
      assert (xs + ys)[..|xs + ys| - 1] == xs + ys';
      assert (xs + ys)[|xs + ys| - 1] == ys[|ys| - 1];
      PendingDeltaConcat(xs, ys');
    }
  }

  /** One request is pending exactly while the attempt is UNASSIGNED. */
  function Pending(s: State): int {
    if s == UNASSIGNED then 1 else 0
  }

  lemma PendingDeltaOfTwo(x: Msg, y: Msg)
    ensures PendingDelta([x, y]) == PendingDelta([x]) + PendingDelta([y])
  {
    assert [x, y] == [x] + [y];
    PendingDeltaConcat([x], [y]);
  }

  /** The net delta a routine sends to the speculator. */
  function HookPending(hook: Hook): int {
    match hook
    case RequestContainerTransition => 1
    case ContainerAssignedTransition => -1
    case DeallocateContainerTransition(_, withdraws) => if withdraws then -1 else 0
    case _ => 0
  }

  /** Messages none of which is a pending-request delta add up to zero. */
  lemma {:induction false} NoPendingMsgs(msgs: seq<Msg>)
    requires forall i :: 0 <= i < |msgs| ==> !msgs[i].SpeculatorPending?
    ensures PendingDelta(msgs) == 0
    decreases |msgs|
  {
    if msgs != [] {
      NoPendingMsgs(msgs[..|msgs| - 1]);
    }
  }

  /** Deallocation withdraws the speculator's pending request exactly when asked to. */
  lemma DeallocatePendingDelta(a: Attempt, finalState: State, withdraws: bool, now: int)
    ensures PendingDelta(DeallocateContainerEffect(a, finalState, withdraws, now).msgs)
            == if withdraws then -1 else 0
  {
    var m := DeallocateContainerEffect(a, finalState, withdraws, now).msgs;
    var rest := m[1..];
    assert m == [m[0]] + rest;
    PendingDeltaConcat([m[0]], rest);
    if withdraws {
      var told := rest[1..];
      assert rest == [rest[0]] + told;
      PendingDeltaConcat([rest[0]], told);
      NoPendingMsgs(told);
    } else {
      NoPendingMsgs(rest);
    }
  }

  lemma HookPendingDelta(cfg: Config, a: Attempt, hook: Hook, e: Event, now: int)
    requires hook.ContainerAssignedTransition? ==> e.ContainerAssigned?
    requires hook.StatusUpdater? ==> e.Update?
    requires hook.DiagnosticInformationUpdater? ==> e.DiagnosticsUpdate?
    ensures PendingDelta(HookEffect(cfg, a, hook, e, now).msgs) == HookPending(hook)
  {
    match hook
    case RequestContainerTransition =>
      var m := RequestContainerEffect(cfg, a).msgs;
      PendingDeltaOfTwo(m[0], m[1]);
    case ContainerAssignedTransition =>
      var m := ContainerAssignedEffect(cfg, a, e.containerId, e.containerMgrAddress, e.containerToken).msgs;
      PendingDeltaOfTwo(m[0], m[1]);
    case DeallocateContainerTransition(finalState, withdraws) =>
      DeallocatePendingDelta(a, finalState, withdraws, now);
    case LaunchedContainerTransition => NoPendingMsgs(LaunchedContainerEffect(a, now).msgs);
    case CommitPendingTransition => NoPendingMsgs(CommitPendingEffect(a).msgs);
    case TaskCleanupTransition => NoPendingMsgs(TaskCleanupEffect(a).msgs);
    case SucceededTransition => NoPendingMsgs(SucceededEffect(cfg, a, now).msgs);
    case FailedTransition => NoPendingMsgs(FailedEffect(cfg, a, now).msgs);
    case TooManyFetchFailureTransition => NoPendingMsgs(TooManyFetchFailureEffect(a, now).msgs);
    case KilledTransition => NoPendingMsgs(KilledEffect(a, now).msgs);
    case CleanupContainerTransition => NoPendingMsgs(CleanupContainerEffect(a).msgs);
    case StatusUpdater => NoPendingMsgs(StatusUpdaterEffect(a, e.status, now).msgs);
    case DiagnosticInformationUpdater =>
      NoPendingMsgs(DiagnosticInformationUpdaterEffect(a, e.diagnosticInfo).msgs);
    case Ignore =>
  }

  /** The table's routines send exactly the change in Pending along their arc. */
  lemma TablePendingDelta(s: State, t: EventType)
    requires Transition(s, t).Some?
    ensures HookPending(Transition(s, t).value.hook) == Pending(Transition(s, t).value.target) - Pending(s)
  {
  }

  /**
   * Each event moves the speculator's count by the change in Pending: +1 for
   * TA_SCHEDULE, -1 when UNASSIGNED is left by the assignment, a kill or a failure,
   * and nothing otherwise (in particular, no -1 on a launch failure from ASSIGNED).
   */
  lemma StepPendingDelta(cfg: Config, a: Attempt, e: Event, now: int)
    ensures PendingDelta(Step(cfg, a, e, now).msgs) == Pending(Step(cfg, a, e, now).attempt.state) - Pending(a.state)
  {
    match Transition(a.state, e.Type())
    case None =>
      PendingDeltaOfTwo(JobDiagnosticsUpdate(e.Type()), JobInternalError);
    case Some(arc) =>
      HookPendingDelta(cfg, a, arc.hook, e, now);
      TablePendingDelta(a.state, e.Type());
  }

  /** Over any sequence of events the speculator's count moves by the change in Pending. */
  lemma {:induction false} RunPendingDelta(cfg: Config, a: Attempt, events: seq<Timed>)
    ensures PendingDelta(Run(cfg, a, events).msgs) == Pending(Run(cfg, a, events).attempt.state) - Pending(a.state)
    decreases |events|
  {
    if events != [] {
      var prefix := events[..|events| - 1];
      RunPendingDelta(cfg, a, prefix);
      var prev := Run(cfg, a, prefix);
      var last := events[|events| - 1];
      StepPendingDelta(cfg, prev.attempt, last.event, last.time);
      PendingDeltaConcat(prev.msgs, Step(cfg, prev.attempt, last.event, last.time).msgs);
    }
  }

  /** From a new attempt, the net count of pending requests is always 0 or 1. */
  lemma PendingIsZeroOrOne(cfg: Config, events: seq<Timed>)
    ensures 0 <= PendingDelta(Run(cfg, Initial(), events).msgs) <= 1
    ensures PendingDelta(Run(cfg, Initial(), events).msgs) == 1 <==>
      Run(cfg, Initial(), events).attempt.state == UNASSIGNED
  {
    RunPendingDelta(cfg, Initial(), events);
  }

  // ---------------------------------------------------------------------------
  // Times along a run with a clock that does not go backwards
  // ---------------------------------------------------------------------------

  predicate ClockMonotone(events: seq<Timed>) {
    forall i, j :: 0 <= i < j < |events| ==> events[i].time <= events[j].time
  }

  /** The recorded times lie at or before the clock `t`, and the finish is not before the launch. */
  predicate TimesBefore(a: Attempt, t: int) {
    && (a.launchTime != 0 ==> a.launchTime <= t)
    && (a.finishTime != 0 ==> a.launchTime <= a.finishTime <= t)
  }

  lemma StepKeepsTimesOrdered(cfg: Config, a: Attempt, e: Event, t: int, now: int)
    requires Inv(a) && TimesBefore(a, t) && t <= now
    ensures TimesBefore(Step(cfg, a, e, now).attempt, now)
  {
    match Transition(a.state, e.Type())
    case None =>
    case Some(arc) =>
      StepAlong(cfg, a, e, now, arc);
      AssignAndLaunchSites(a.state, e.Type());
      HookKeepsTimesOrdered(cfg, a, arc.hook, e, t, now);
  }

  /** Each routine records times only from the clock; the launch routine needs no finish time yet. */
  lemma HookKeepsTimesOrdered(cfg: Config, a: Attempt, hook: Hook, e: Event, t: int, now: int)
    requires hook.ContainerAssignedTransition? ==> e.ContainerAssigned?
    requires hook.StatusUpdater? ==> e.Update?
    requires hook.DiagnosticInformationUpdater? ==> e.DiagnosticsUpdate?
    requires TimesBefore(a, t) && t <= now
    requires hook == LaunchedContainerTransition ==> a.finishTime == 0
    ensures TimesBefore(HookEffect(cfg, a, hook, e, now).attempt, now)
  {
  }

  /**
   * From a new attempt with a clock that never goes backwards, a recorded finish time
   * is never before the launch time.
   */
  lemma {:induction false} FinishNotBeforeLaunch(cfg: Config, events: seq<Timed>)
    requires ClockMonotone(events) && |events| > 0
    ensures Inv(Run(cfg, Initial(), events).attempt)
    ensures TimesBefore(Run(cfg, Initial(), events).attempt, events[|events| - 1].time)
    decreases |events|
  {
    var prefix := events[..|events| - 1];
    var last := events[|events| - 1];
    var prev := Run(cfg, Initial(), prefix);
    if prefix == [] {
      InitialInv();
      StepPreservesInv(cfg, Initial(), last.event, last.time);
      StepKeepsTimesOrdered(cfg, Initial(), last.event, last.time, last.time);
    } else {
      assert ClockMonotone(prefix);
      FinishNotBeforeLaunch(cfg, prefix);
      assert prefix[|prefix| - 1].time <= last.time;
      StepPreservesInv(cfg, prev.attempt, last.event, last.time);
      StepKeepsTimesOrdered(cfg, prev.attempt, last.event, prefix[|prefix| - 1].time, last.time);
    }
  }

  // ---------------------------------------------------------------------------
  // Scenarios
  // ---------------------------------------------------------------------------

  /** Handling one more event after a run. */
  lemma RunSnoc(cfg: Config, a: Attempt, events: seq<Timed>, last: Timed)
    ensures var prev := Run(cfg, a, events);
      var step := Step(cfg, prev.attempt, last.event, last.time);
      Run(cfg, a, events + [last]) == Effect(step.attempt, prev.msgs + step.msgs)
  {
    assert (events + [last])[..|events|] == events;
  }

  /** A run of three events is the composition of three steps. */
  lemma RunOfThree(cfg: Config, a: Attempt, x: Timed, y: Timed, z: Timed)
    ensures var s1 := Step(cfg, a, x.event, x.time);
      var s2 := Step(cfg, s1.attempt, y.event, y.time);
      var s3 := Step(cfg, s2.attempt, z.event, z.time);
      Run(cfg, a, [x, y, z]) == Effect(s3.attempt, s1.msgs + s2.msgs + s3.msgs)
  {
    var s1 := Step(cfg, a, x.event, x.time);
    var s2 := Step(cfg, s1.attempt, y.event, y.time);
    var s3 := Step(cfg, s2.attempt, z.event, z.time);
    RunSnoc(cfg, a, [], x);
    assert [] + [x] == [x];
    assert Run(cfg, a, [x]) == Effect(s1.attempt, s1.msgs);
    RunSnoc(cfg, a, [x], y);
    assert [x] + [y] == [x, y];
    assert Run(cfg, a, [x, y]) == Effect(s2.attempt, s1.msgs + s2.msgs);
    RunSnoc(cfg, a, [x, y], z);
    assert [x, y] + [z] == [x, y, z];
  }

  /** A step along a known arc applies the arc's routine and moves to its target. */
  lemma StepAlong(cfg: Config, a: Attempt, e: Event, now: int, arc: Arc)
    requires Transition(a.state, e.Type()) == Some(arc)
    ensures var eff := HookEffect(cfg, a, arc.hook, e, now);
      Step(cfg, a, e, now) == Effect(eff.attempt.(state := arc.target), eff.msgs)
  {
  }

  /** TA_KILL while RUNNING: unregister, ask for the container cleanup. */
  lemma KillWhileRunningStep(cfg: Config, a: Attempt, now: int)
    requires a.state == RUNNING
    ensures Step(cfg, a, Kill, now)
            == Effect(a.(state := KILL_CONTAINER_CLEANUP), CleanupContainerEffect(a).msgs)
  {
    StepAlong(cfg, a, Kill, now, Arc(KILL_CONTAINER_CLEANUP, CleanupContainerTransition));
  }

  /** The container is cleaned after a kill: ask for the task cleanup. */
  lemma KilledContainerCleanedStep(cfg: Config, a: Attempt, now: int)
    requires a.state == KILL_CONTAINER_CLEANUP
    ensures Step(cfg, a, ContainerCleaned, now) == Effect(a.(state := KILL_TASK_CLEANUP), [TaskCleanup])
  {
    StepAlong(cfg, a, ContainerCleaned, now, Arc(KILL_TASK_CLEANUP, TaskCleanupTransition));
  }

  /** The task cleanup is done after a kill: the attempt is KILLED. */
  lemma KilledCleanupDoneStep(cfg: Config, a: Attempt, now: int)
    requires a.state == KILL_TASK_CLEANUP
    ensures var f := SetFinishTime(a, now);
      Step(cfg, a, CleanupDone, now)
      == Effect(f.(state := KILLED), [History(UnsuccessfulCompletion(KILLED, f.finishTime)), ToTask(T_ATTEMPT_KILLED)])
  {
    StepAlong(cfg, a, CleanupDone, now, Arc(KILLED, KilledTransition));
  }

  /**
   * A kill while RUNNING goes through both cleanup states to KILLED, sending one
   * unregistration, one container cleanup, one task cleanup, one history record and
   * one notification to the task.
   */
  lemma KillWhileRunning(cfg: Config, a: Attempt, t1: int, t2: int, t3: int)
    requires a.state == RUNNING
    ensures var r := Run(cfg, a, [Timed(Kill, t1), Timed(ContainerCleaned, t2), Timed(CleanupDone, t3)]);
      var ft := if a.launchTime != 0 then t3 else a.finishTime;
      && r.attempt == SetFinishTime(a, t3).(state := KILLED)
      && r.msgs == [ListenerUnregister(a.jvmId),
                    ContainerRemoteCleanup(a.containerId, a.containerMgrAddress, a.containerToken),
                    TaskCleanup,
                    History(UnsuccessfulCompletion(KILLED, ft)),
                    ToTask(T_ATTEMPT_KILLED)]
  {
    var s1 := Step(cfg, a, Kill, t1);
    KillWhileRunningStep(cfg, a, t1);
    var s2 := Step(cfg, s1.attempt, ContainerCleaned, t2);
    KilledContainerCleanedStep(cfg, s1.attempt, t2);
    var s3 := Step(cfg, s2.attempt, CleanupDone, t3);
    KilledCleanupDoneStep(cfg, s2.attempt, t3);
    RunOfThree(cfg, a, Timed(Kill, t1), Timed(ContainerCleaned, t2), Timed(CleanupDone, t3));
  }

  /** TA_SCHEDULE while NEW: ask for a container and tell the speculator +1. */
  lemma ScheduleStep(cfg: Config, a: Attempt, now: int)
    requires a.state == NEW
    ensures Step(cfg, a, Schedule, now)
            == Effect(a.(state := UNASSIGNED),
                      [SpeculatorPending(1), ContainerRequest(cfg.memory, cfg.priority, cfg.dataLocalHosts, Racks)])
  {
    StepAlong(cfg, a, Schedule, now, Arc(UNASSIGNED, RequestContainerTransition));
  }

  /** TA_ASSIGNED while UNASSIGNED: record the container and ask for its launch. */
  lemma AssignStep(cfg: Config, a: Attempt, c: ContainerId, address: string, token: ContainerToken, now: int)
    requires a.state == UNASSIGNED
    ensures var e := ContainerAssigned(c, address, token);
      Step(cfg, a, e, now)
      == Effect(ContainerAssignedEffect(cfg, a, c, address, token).attempt.(state := ASSIGNED),
                [ContainerRemoteLaunch(c, address, token), SpeculatorPending(-1)])
  {
    StepAlong(cfg, a, ContainerAssigned(c, address, token), now, Arc(ASSIGNED, ContainerAssignedTransition));
  }

  /** TA_CONTAINER_LAUNCH_FAILED while ASSIGNED: give the container back and fail. */
  lemma LaunchFailedStep(cfg: Config, a: Attempt, now: int)
    requires a.state == ASSIGNED
    ensures Step(cfg, a, ContainerLaunchFailed, now)
            == Effect(SetFinishTime(a, now).(state := FAILED), [ContainerDeallocate, ToTask(T_ATTEMPT_FAILED)])
  {
    StepAlong(cfg, a, ContainerLaunchFailed, now, Arc(FAILED, DeallocateContainerTransition(FAILED, false)));
  }

  /**
   * Schedule, assignment, then a launch failure: FAILED with no finish time, one
   * container request, one launch request, one deallocation, and the speculator told
   * +1 and -1 once each.
   */
  lemma LaunchFailure(cfg: Config, c: ContainerId, address: string, token: ContainerToken, t1: int, t2: int, t3: int)
    ensures var r := Run(cfg, Initial(), [Timed(Schedule, t1), Timed(ContainerAssigned(c, address, token), t2),
                                          Timed(ContainerLaunchFailed, t3)]);
      && r.attempt.state == FAILED && r.attempt.finishTime == 0 && r.attempt.remoteTask == Some(cfg.remoteTask)
      && r.msgs == [SpeculatorPending(1), ContainerRequest(cfg.memory, cfg.priority, cfg.dataLocalHosts, Racks),
                    ContainerRemoteLaunch(c, address, token), SpeculatorPending(-1),
                    ContainerDeallocate, ToTask(T_ATTEMPT_FAILED)]
  {
    var a0 := Initial();
    var s1 := Step(cfg, a0, Schedule, t1);
    ScheduleStep(cfg, a0, t1);
    var s2 := Step(cfg, s1.attempt, ContainerAssigned(c, address, token), t2);
    AssignStep(cfg, s1.attempt, c, address, token, t2);
    var s3 := Step(cfg, s2.attempt, ContainerLaunchFailed, t3);
    LaunchFailedStep(cfg, s2.attempt, t3);
    RunOfThree(cfg, a0, Timed(Schedule, t1), Timed(ContainerAssigned(c, address, token), t2),
               Timed(ContainerLaunchFailed, t3));
  }
}
