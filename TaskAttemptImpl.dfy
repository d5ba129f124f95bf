/**
 * The task attempt as an object: its fields are updated in place by `Handle` and by
 * one method per transition routine, and everything it sends to its event handler
 * or its listener is appended to `outbox`. Each method is proved to do exactly
 * what the value model in TaskAttemptModel says, field by field and message by
 * message, so the properties proved there hold of the object.
 */
module TaskAttempt {
  import opened Wrappers
  import opened TaskAttemptTable
  import opened TaskAttemptModel
  import opened TaskAttemptProperties

  class TaskAttemptImpl {
    /** Fixed at construction: identity, memory request, hosts, remote task, priority. */
    const cfg: Config

    var state: State
    var launchTime: int
    var finishTime: int
    var containerId: Option<ContainerId>
    var containerMgrAddress: Option<string>
    var containerToken: Option<ContainerToken>
    var jvmId: Option<JvmId>
    var remoteTask: Option<RemoteTask>
    var reportedStatus: Status
    var diagnostics: seq<string>

    /** Everything sent so far, in order. */
    var outbox: seq<Msg>

    /** The mutable fields as a value. */
    function Snapshot(): Attempt
      reads this
    {
      Attempt(state, launchTime, finishTime, containerId, containerMgrAddress, containerToken,
              jvmId, remoteTask, reportedStatus, diagnostics)
    }

    /**
     * The constructor: the status starts as `initTaskAttemptStatus` leaves it, the
     * memory request is `getMemoryRequired`'s, and the state machine starts in NEW.
     */
    constructor(attemptId: AttemptId, dataLocalHosts: seq<string>, remote: RemoteTask,
                priority: int, mapMemoryMb: Option<int>, reduceMemoryMb: Option<int>)
      ensures cfg == Config(attemptId, 1024, dataLocalHosts, remote, priority)
      ensures Snapshot() == Initial() && outbox == []
      ensures Inv(Snapshot())
    {
      cfg := Config(attemptId, GetMemoryRequired(attemptId.taskType, mapMemoryMb, reduceMemoryMb),
                    dataLocalHosts, remote, priority);
      state := NEW;
      launchTime := 0;
      finishTime := 0;
      containerId := None;
      containerMgrAddress := None;
      containerToken := None;
      jvmId := None;
      remoteTask := None;
      reportedStatus := InitialStatus();
      diagnostics := [];
      outbox := [];
      InitialInv();
    }

    /** `isFinished`. */
    predicate IsFinishedNow()
      reads this
    {
      IsFinished(state)
    }

    /** `getReport`. */
    function Report(): TaskAttemptModel.Report
      reads this
    {
      GetReport(cfg, Snapshot())
    }

    /** Hands one message to the event handler or the listener. */
    method Send(m: Msg)
      modifies this
      ensures Snapshot() == old(Snapshot()) && outbox == old(outbox) + [m]
    {
      outbox := outbox + [m];
    }

    /** `setFinishTime`, with `now` as the clock. */
    method SetFinish(now: int)
      modifies this
      ensures Snapshot() == SetFinishTime(old(Snapshot()), now) && outbox == old(outbox)
    {
      if launchTime != 0 {
        finishTime := now;
      }
    }

    /** `addDiagnosticInfo`. */
    method AddDiagnostic(diag: Option<string>)
      modifies this
      ensures Snapshot() == old(Snapshot()).(diagnostics := AddDiagnosticInfo(old(diagnostics), diag))
      ensures outbox == old(outbox)
    {
      if diag.Some? && diag.value != "" {
        diagnostics := diagnostics + [diag.value];
      }
    }

    /**
     * `handle`: takes the arc the table gives for the current state and the event's
     * type, runs its routine and moves to its target; without an arc, tells the job
     * about the invalid event and raises an internal error, changing nothing else.
     */
    method Handle(e: Event, now: int)
      modifies this
      ensures Snapshot() == Step(cfg, old(Snapshot()), e, now).attempt
      ensures outbox == old(outbox) + Step(cfg, old(Snapshot()), e, now).msgs
      ensures Inv(old(Snapshot())) ==> Inv(Snapshot())
    {
      ghost var a0 := Snapshot();
      if Inv(a0) {
        StepPreservesInv(cfg, a0, e, now);
      }
      var tr := Transition(state, e.Type());
      if tr.None? {
        Send(JobDiagnosticsUpdate(e.Type()));
        Send(JobInternalError);
        assert outbox == old(outbox) + InvalidEventMsgs(e.Type());
        return;
      }
      var arc := tr.value;
      StepAlong(cfg, Snapshot(), e, now, arc);
      RunHook(arc.hook, e, now);
      state := arc.target;
    }

    /** The routine an arc names, run on the event the arc was taken for. */
    method RunHook(hook: Hook, e: Event, now: int)
      requires hook.ContainerAssignedTransition? ==> e.ContainerAssigned?
      requires hook.StatusUpdater? ==> e.Update?
      requires hook.DiagnosticInformationUpdater? ==> e.DiagnosticsUpdate?
      modifies this
      ensures Snapshot() == HookEffect(cfg, old(Snapshot()), hook, e, now).attempt
      ensures outbox == old(outbox) + HookEffect(cfg, old(Snapshot()), hook, e, now).msgs
    {
      match hook
      case RequestContainerTransition => RequestContainer();
      case ContainerAssignedTransition =>
        AssignContainer(e.containerId, e.containerMgrAddress, e.containerToken);
      case DeallocateContainerTransition(finalState, withdraws) =>
        DeallocateContainer(finalState, withdraws, now);
      case LaunchedContainerTransition => LaunchedContainer(now);
      case CommitPendingTransition => Send(ToTask(T_ATTEMPT_COMMIT_PENDING));
      case TaskCleanupTransition => Send(TaskCleanup);
      case SucceededTransition => Succeeded(now);
      case FailedTransition => Failed(now);
      case TooManyFetchFailureTransition => TooManyFetchFailures(now);
      case KilledTransition => Killed(now);
      case CleanupContainerTransition => CleanupContainer();
      case StatusUpdater => UpdateStatus(e.status, now);
      case DiagnosticInformationUpdater => AddDiagnostic(e.diagnosticInfo);
      case Ignore =>
    }

    /** RequestContainerTransition. */
    method RequestContainer()
      modifies this
      ensures Snapshot() == old(Snapshot())
      ensures outbox == old(outbox) + RequestContainerEffect(cfg, old(Snapshot())).msgs
    {
      Send(SpeculatorPending(1));
      Send(ContainerRequest(cfg.memory, cfg.priority, cfg.dataLocalHosts, Racks));
    }

    /** ContainerAssignedTransition. */
    method AssignContainer(c: ContainerId, address: string, token: ContainerToken)
      modifies this
      ensures Snapshot() == ContainerAssignedEffect(cfg, old(Snapshot()), c, address, token).attempt
      ensures outbox == old(outbox) + ContainerAssignedEffect(cfg, old(Snapshot()), c, address, token).msgs
    {
      containerId := Some(c);
      containerMgrAddress := Some(address);
      containerToken := Some(token);
      remoteTask := Some(cfg.remoteTask);
      jvmId := Some(JvmId(cfg.remoteTask.jobId, cfg.remoteTask.isMapTask, c.id));
      Send(ContainerRemoteLaunch(c, address, token));
      Send(SpeculatorPending(-1));
    }

    /** DeallocateContainerTransition(finalState, withdraws). */
    method DeallocateContainer(finalState: State, withdraws: bool, now: int)
      modifies this
      ensures Snapshot() == DeallocateContainerEffect(old(Snapshot()), finalState, withdraws, now).attempt
      ensures outbox == old(outbox) + DeallocateContainerEffect(old(Snapshot()), finalState, withdraws, now).msgs
    {
      SetFinish(now);
      Send(ContainerDeallocate);
      if withdraws {
        Send(SpeculatorPending(-1));
      }
      match finalState
      case FAILED => Send(ToTask(T_ATTEMPT_FAILED));
      case KILLED => Send(ToTask(T_ATTEMPT_KILLED));
      case _ =>
    }

    /** LaunchedContainerTransition. */
    method LaunchedContainer(now: int)
      modifies this
      ensures Snapshot() == LaunchedContainerEffect(old(Snapshot()), now).attempt
      ensures outbox == old(outbox) + LaunchedContainerEffect(old(Snapshot()), now).msgs
    {
      launchTime := now;
      Send(ListenerRegister(remoteTask, jvmId));
      Send(History(AttemptStarted(launchTime)));
      Send(SpeculatorLaunched(now));
      remoteTask := None;
      Send(ToTask(T_ATTEMPT_LAUNCHED));
    }

    /** SucceededTransition. */
    method Succeeded(now: int)
      modifies this
      ensures Snapshot() == SucceededEffect(cfg, old(Snapshot()), now).attempt
      ensures outbox == old(outbox) + SucceededEffect(cfg, old(Snapshot()), now).msgs
    {
      SetFinish(now);
      Send(History(FinishedRecord(cfg.attemptId.taskType, SUCCEEDED, finishTime)));
      Send(ToTask(T_ATTEMPT_SUCCEEDED));
    }

    /** FailedTransition. */
    method Failed(now: int)
      modifies this
      ensures Snapshot() == FailedEffect(cfg, old(Snapshot()), now).attempt
      ensures outbox == old(outbox) + FailedEffect(cfg, old(Snapshot()), now).msgs
    {
      SetFinish(now);
      Send(History(UnsuccessfulCompletion(FAILED, finishTime)));
      Send(History(FinishedRecord(cfg.attemptId.taskType, FAILED, finishTime)));
      Send(ToTask(T_ATTEMPT_FAILED));
    }

    /** TooManyFetchFailureTransition. */
    method TooManyFetchFailures(now: int)
      modifies this
      ensures Snapshot() == TooManyFetchFailureEffect(old(Snapshot()), now).attempt
      ensures outbox == old(outbox) + TooManyFetchFailureEffect(old(Snapshot()), now).msgs
    {
      AddDiagnostic(Some(TooManyFetchFailuresMessage));
      SetFinish(now);
      Send(ToTask(T_ATTEMPT_FAILED));
    }

    /** KilledTransition. */
    method Killed(now: int)
      modifies this
      ensures Snapshot() == KilledEffect(old(Snapshot()), now).attempt
      ensures outbox == old(outbox) + KilledEffect(old(Snapshot()), now).msgs
    {
      SetFinish(now);
      Send(History(UnsuccessfulCompletion(KILLED, finishTime)));
      Send(ToTask(T_ATTEMPT_KILLED));
    }

    /** CleanupContainerTransition. */
    method CleanupContainer()
      modifies this
      ensures Snapshot() == old(Snapshot())
      ensures outbox == old(outbox) + CleanupContainerEffect(old(Snapshot())).msgs
    {
      Send(ListenerUnregister(jvmId));
      Send(ContainerRemoteCleanup(containerId, containerMgrAddress, containerToken));
    }

    /** StatusUpdater. */
    method UpdateStatus(st: Status, now: int)
      modifies this
      ensures Snapshot() == StatusUpdaterEffect(old(Snapshot()), st, now).attempt
      ensures outbox == old(outbox) + StatusUpdaterEffect(old(Snapshot()), st, now).msgs
    {
      reportedStatus := st;
      Send(SpeculatorStatus(reportedStatus, now));
      AddDiagnostic(Some(st.diagnosticInfo));
      if reportedStatus.fetchFailedMaps.Some? && |reportedStatus.fetchFailedMaps.value| > 0 {
        Send(JobFetchFailure(reportedStatus.fetchFailedMaps.value));
      }
    }
  }
}
