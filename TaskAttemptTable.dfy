/**
 * The transition table of a task attempt: its thirteen states, the event types it
 * reacts to, and for each (state, event type) pair the arc the table declares, if any.
 * An arc names its target state and the transition routine ("hook") that runs on it;
 * the routines themselves are given in module TaskAttemptModel.
 */
module TaskAttemptTable {
  import opened Wrappers

  /** The lifecycle states of an attempt; the initial one is NEW. */
  datatype State =
    | NEW | UNASSIGNED | ASSIGNED | RUNNING | COMMIT_PENDING
    | SUCCESS_CONTAINER_CLEANUP | FAIL_CONTAINER_CLEANUP | KILL_CONTAINER_CLEANUP
    | FAIL_TASK_CLEANUP | KILL_TASK_CLEANUP
    | SUCCEEDED | FAILED | KILLED

  /** The event types the table mentions. */
  datatype EventType =
    | TA_SCHEDULE | TA_ASSIGNED | TA_CONTAINER_LAUNCHED | TA_CONTAINER_LAUNCH_FAILED
    | TA_KILL | TA_FAILMSG | TA_UPDATE | TA_DIAGNOSTICS_UPDATE | TA_DONE
    | TA_COMMIT_PENDING | TA_CONTAINER_COMPLETED | TA_TIMED_OUT
    | TA_CONTAINER_CLEANED | TA_CLEANUP_DONE | TA_TOO_MANY_FETCH_FAILURE

  /**
   * The routine an arc runs. `Ignore` is an arc declared with a set of events and
   * no routine: it only (re)enters its target state.
   */
  datatype Hook =
    | RequestContainerTransition
    | ContainerAssignedTransition
    | DeallocateContainerTransition(finalState: State, withdrawsContainerRequest: bool)
    | LaunchedContainerTransition
    | CommitPendingTransition
    | TaskCleanupTransition
    | SucceededTransition
    | FailedTransition
    | TooManyFetchFailureTransition
    | KilledTransition
    | CleanupContainerTransition
    | StatusUpdater
    | DiagnosticInformationUpdater
    | Ignore

  datatype Arc = Arc(target: State, hook: Hook)

  /**
   * The table. `None` means the pair has no arc: the event is invalid in that state.
   * The routines that read a payload (the assigned container, the reported status,
   * the diagnostic text) sit only on the event type that carries it, and every arc
   * without a routine is a self-loop.
   */
  function Transition(s: State, t: EventType): (r: Option<Arc>)
    ensures r.Some? && r.value.hook.ContainerAssignedTransition? ==> t == TA_ASSIGNED
    ensures r.Some? && r.value.hook.StatusUpdater? ==> t == TA_UPDATE
    ensures r.Some? && r.value.hook.DiagnosticInformationUpdater? ==> t == TA_DIAGNOSTICS_UPDATE
    ensures r.Some? && r.value.hook.Ignore? ==> r.value.target == s
  {
    match s
    case NEW =>
      (match t
       case TA_SCHEDULE => Some(Arc(UNASSIGNED, RequestContainerTransition))
       case TA_KILL => Some(Arc(KILLED, KilledTransition))
       case TA_FAILMSG => Some(Arc(FAILED, FailedTransition))
       case _ => None)
    case UNASSIGNED =>
      (match t
       case TA_ASSIGNED => Some(Arc(ASSIGNED, ContainerAssignedTransition))
       case TA_KILL => Some(Arc(KILLED, DeallocateContainerTransition(KILLED, true)))
       case TA_FAILMSG => Some(Arc(FAILED, DeallocateContainerTransition(FAILED, true)))
       case _ => None)
    case ASSIGNED =>
      (match t
       case TA_CONTAINER_LAUNCHED => Some(Arc(RUNNING, LaunchedContainerTransition))
       case TA_CONTAINER_LAUNCH_FAILED => Some(Arc(FAILED, DeallocateContainerTransition(FAILED, false)))
       case TA_KILL => Some(Arc(KILL_CONTAINER_CLEANUP, CleanupContainerTransition))
       case TA_FAILMSG => Some(Arc(FAIL_CONTAINER_CLEANUP, CleanupContainerTransition))
       case _ => None)
    case RUNNING =>
      (match t
       case TA_UPDATE => Some(Arc(RUNNING, StatusUpdater))
       case TA_DIAGNOSTICS_UPDATE => Some(Arc(RUNNING, DiagnosticInformationUpdater))
       case TA_DONE => Some(Arc(SUCCESS_CONTAINER_CLEANUP, CleanupContainerTransition))
       case TA_COMMIT_PENDING => Some(Arc(COMMIT_PENDING, CommitPendingTransition))
       case TA_FAILMSG => Some(Arc(FAIL_CONTAINER_CLEANUP, CleanupContainerTransition))
       case TA_CONTAINER_COMPLETED => Some(Arc(FAIL_CONTAINER_CLEANUP, CleanupContainerTransition))
       case TA_TIMED_OUT => Some(Arc(FAIL_CONTAINER_CLEANUP, CleanupContainerTransition))
       case TA_KILL => Some(Arc(KILL_CONTAINER_CLEANUP, CleanupContainerTransition))
       case _ => None)
    case COMMIT_PENDING =>
      (match t
       case TA_UPDATE => Some(Arc(COMMIT_PENDING, StatusUpdater))
       case TA_DIAGNOSTICS_UPDATE => Some(Arc(COMMIT_PENDING, DiagnosticInformationUpdater))
       case TA_DONE => Some(Arc(SUCCESS_CONTAINER_CLEANUP, CleanupContainerTransition))
       case TA_KILL => Some(Arc(KILL_CONTAINER_CLEANUP, CleanupContainerTransition))
       case TA_FAILMSG => Some(Arc(FAIL_CONTAINER_CLEANUP, CleanupContainerTransition))
       case TA_CONTAINER_COMPLETED => Some(Arc(FAIL_CONTAINER_CLEANUP, CleanupContainerTransition))
       case TA_TIMED_OUT => Some(Arc(FAIL_CONTAINER_CLEANUP, CleanupContainerTransition))
       case _ => None)
    case SUCCESS_CONTAINER_CLEANUP =>
      (match t
       case TA_CONTAINER_CLEANED => Some(Arc(SUCCEEDED, SucceededTransition))
       case TA_KILL | TA_FAILMSG | TA_TIMED_OUT | TA_CONTAINER_COMPLETED =>
         Some(Arc(SUCCESS_CONTAINER_CLEANUP, Ignore))
       case _ => None)
    case FAIL_CONTAINER_CLEANUP =>
      (match t
       case TA_CONTAINER_CLEANED => Some(Arc(FAIL_TASK_CLEANUP, TaskCleanupTransition))
       case TA_KILL | TA_CONTAINER_COMPLETED | TA_UPDATE | TA_DIAGNOSTICS_UPDATE
         | TA_COMMIT_PENDING | TA_CONTAINER_LAUNCHED | TA_DONE | TA_FAILMSG | TA_TIMED_OUT =>
         Some(Arc(FAIL_CONTAINER_CLEANUP, Ignore))
       case _ => None)
    case KILL_CONTAINER_CLEANUP =>
      (match t
       case TA_CONTAINER_CLEANED => Some(Arc(KILL_TASK_CLEANUP, TaskCleanupTransition))
       case TA_KILL | TA_CONTAINER_COMPLETED | TA_UPDATE | TA_DIAGNOSTICS_UPDATE
         | TA_COMMIT_PENDING | TA_CONTAINER_LAUNCHED | TA_DONE | TA_FAILMSG | TA_TIMED_OUT =>
         Some(Arc(KILL_CONTAINER_CLEANUP, Ignore))
       case _ => None)
    case FAIL_TASK_CLEANUP =>
      (match t
       case TA_CLEANUP_DONE => Some(Arc(FAILED, FailedTransition))
       case TA_KILL | TA_CONTAINER_COMPLETED | TA_UPDATE | TA_DIAGNOSTICS_UPDATE
         | TA_COMMIT_PENDING | TA_DONE | TA_FAILMSG =>
         Some(Arc(FAIL_TASK_CLEANUP, Ignore))
       case _ => None)
    case KILL_TASK_CLEANUP =>
      (match t
       case TA_CLEANUP_DONE => Some(Arc(KILLED, KilledTransition))
       case TA_KILL | TA_CONTAINER_COMPLETED | TA_UPDATE | TA_DIAGNOSTICS_UPDATE
         | TA_COMMIT_PENDING | TA_DONE | TA_FAILMSG =>
         Some(Arc(KILL_TASK_CLEANUP, Ignore))
       case _ => None)
    case SUCCEEDED =>
      (match t
       case TA_TOO_MANY_FETCH_FAILURE => Some(Arc(FAILED, TooManyFetchFailureTransition))
       case TA_KILL | TA_FAILMSG | TA_CONTAINER_COMPLETED => Some(Arc(SUCCEEDED, Ignore))
       case _ => None)
    case FAILED =>
      (match t
       case TA_KILL | TA_ASSIGNED | TA_CONTAINER_COMPLETED | TA_UPDATE | TA_DIAGNOSTICS_UPDATE
         | TA_CONTAINER_LAUNCHED | TA_COMMIT_PENDING | TA_DONE | TA_FAILMSG =>
         Some(Arc(FAILED, Ignore))
       case _ => None)
    case KILLED =>
      (match t
       case TA_KILL | TA_ASSIGNED | TA_CONTAINER_COMPLETED | TA_UPDATE | TA_DIAGNOSTICS_UPDATE
         | TA_CONTAINER_LAUNCHED | TA_COMMIT_PENDING | TA_DONE | TA_FAILMSG =>
         Some(Arc(KILLED, Ignore))
       case _ => None)
  }

  /** The state the table moves to, if the pair has an arc. */
  function Next(s: State, t: EventType): Option<State> {
    match Transition(s, t)
    case None => None
    case Some(arc) => Some(arc.target)
  }

  /** `isFinished()`: the attempt is in one of the three terminal states. */
  predicate IsFinished(s: State) {
    s == SUCCEEDED || s == FAILED || s == KILLED
  }

  /** An event that moves a non-terminal state elsewhere, used as a witness below. */
  function ExitEvent(s: State): EventType {
    match s
    case SUCCESS_CONTAINER_CLEANUP | FAIL_CONTAINER_CLEANUP | KILL_CONTAINER_CLEANUP =>
      TA_CONTAINER_CLEANED
    case FAIL_TASK_CLEANUP | KILL_TASK_CLEANUP => TA_CLEANUP_DONE
    case _ => TA_KILL
  }

  /**
   * The terminal states are exactly those that no event other than
   * TA_TOO_MANY_FETCH_FAILURE moves elsewhere: every other state has a way out.
   */
  lemma FinishedIffAbsorbing(s: State)
    ensures IsFinished(s) <==>
      (forall t :: t != TA_TOO_MANY_FETCH_FAILURE && Next(s, t).Some? ==> Next(s, t).value == s)
  {
    if !IsFinished(s) {
      var t := ExitEvent(s);
      assert t != TA_TOO_MANY_FETCH_FAILURE && Next(s, t).Some? && Next(s, t).value != s;
    }
  }

  /** No arc leads out of the terminal states into a non-terminal one. */
  lemma FinishedIsClosed(s: State, t: EventType)
    requires IsFinished(s) && Next(s, t).Some?
    ensures IsFinished(Next(s, t).value)
  {
  }

  /**
   * FAILED and KILLED are absorbing: every arc out of them is an ignored self-loop,
   * and exactly six event types are invalid there.
   */
  lemma FailedKilledAbsorbing(s: State, t: EventType)
    requires s == FAILED || s == KILLED
    ensures Transition(s, t).Some? ==> Transition(s, t).value == Arc(s, Ignore)
    ensures Transition(s, t).None? <==>
      t in {TA_SCHEDULE, TA_TIMED_OUT, TA_CONTAINER_CLEANED, TA_CLEANUP_DONE,
            TA_CONTAINER_LAUNCH_FAILED, TA_TOO_MANY_FETCH_FAILURE}
  {
  }

  /** SUCCEEDED is left only by TA_TOO_MANY_FETCH_FAILURE, and then for FAILED. */
  lemma SucceededExit(t: EventType)
    ensures (Next(SUCCEEDED, t).Some? && Next(SUCCEEDED, t).value != SUCCEEDED)
      <==> t == TA_TOO_MANY_FETCH_FAILURE
    ensures t == TA_TOO_MANY_FETCH_FAILURE ==> Next(SUCCEEDED, t) == Some(FAILED)
  {
  }

  /**
   * The two container-cleanup states ignore nine event types, among them
   * TA_TIMED_OUT and TA_CONTAINER_LAUNCHED, and reject five.
   */
  lemma ContainerCleanupEvents(s: State, t: EventType)
    requires s == FAIL_CONTAINER_CLEANUP || s == KILL_CONTAINER_CLEANUP
    ensures Transition(s, t) == Some(Arc(s, Ignore)) <==>
      t in {TA_KILL, TA_CONTAINER_COMPLETED, TA_UPDATE, TA_DIAGNOSTICS_UPDATE,
            TA_COMMIT_PENDING, TA_CONTAINER_LAUNCHED, TA_DONE, TA_FAILMSG, TA_TIMED_OUT}
    ensures Transition(s, t).None? <==>
      t in {TA_SCHEDULE, TA_ASSIGNED, TA_CONTAINER_LAUNCH_FAILED, TA_CLEANUP_DONE,
            TA_TOO_MANY_FETCH_FAILURE}
  {
  }

  /**
   * The two task-cleanup states ignore only seven event types: unlike the
   * container-cleanup states they reject TA_TIMED_OUT and TA_CONTAINER_LAUNCHED.
   */
  lemma TaskCleanupEvents(s: State, t: EventType)
    requires s == FAIL_TASK_CLEANUP || s == KILL_TASK_CLEANUP
    ensures Transition(s, t) == Some(Arc(s, Ignore)) <==>
      t in {TA_KILL, TA_CONTAINER_COMPLETED, TA_UPDATE, TA_DIAGNOSTICS_UPDATE,
            TA_COMMIT_PENDING, TA_DONE, TA_FAILMSG}
    ensures Transition(s, t).None? <==>
      t in {TA_SCHEDULE, TA_ASSIGNED, TA_CONTAINER_LAUNCHED, TA_CONTAINER_LAUNCH_FAILED,
            TA_TIMED_OUT, TA_CONTAINER_CLEANED, TA_TOO_MANY_FETCH_FAILURE}
  {
  }

  /** SUCCESS_CONTAINER_CLEANUP ignores exactly four event types. */
  lemma SuccessCleanupEvents(t: EventType)
    ensures Transition(SUCCESS_CONTAINER_CLEANUP, t) == Some(Arc(SUCCESS_CONTAINER_CLEANUP, Ignore))
      <==> t in {TA_KILL, TA_FAILMSG, TA_TIMED_OUT, TA_CONTAINER_COMPLETED}
  {
  }

  /** The states before a container is running never ignore an event. */
  lemma EarlyStatesIgnoreNothing(s: State, t: EventType)
    requires s in {NEW, UNASSIGNED, ASSIGNED, RUNNING, COMMIT_PENDING}
    ensures Transition(s, t).Some? ==> !Transition(s, t).value.hook.Ignore?
  {
  }

  /** A container is assigned only to an UNASSIGNED attempt, and launched only in an ASSIGNED one. */
  lemma AssignAndLaunchSites(s: State, t: EventType)
    ensures Transition(s, t).Some? && Transition(s, t).value.hook == ContainerAssignedTransition ==>
      s == UNASSIGNED && t == TA_ASSIGNED
    ensures Transition(s, t).Some? && Transition(s, t).value.hook == LaunchedContainerTransition ==>
      s == ASSIGNED && t == TA_CONTAINER_LAUNCHED
  {
  }
}
