/**
  The control block of one submitted task (`TaskControl`, src/executor.rs) and the
  values it decides on.

  `Control` is the pair guarded by the per-task lock together with the two
  constants the lock's critical sections consult.  The functions below say what each
  critical section does to it; class `TaskControl` performs them in place.
 */
module Tasks {
  import opened Wrappers

  datatype Lifecycle =
    | Queued
    | AcceptedNotStarted
    | Started
    | Cancelling
    | Terminated
    | Completed
    | Failed
  {
    predicate Terminal() {
      Terminated? || Completed? || Failed?
    }

    /** The states in which the manager still enforces a deadline. */
    predicate DeadlineApplies() {
      AcceptedNotStarted? || Started?
    }
  }

  datatype CancelReason = User | Deadline | Shutdown

  datatype CancelOutcome = Requested | AlreadyRequested | AlreadyTerminal

  datatype BackendError = SupervisorTimeout | SupervisorInfrastructure | RuntimeTimeout | OtherError

  /** What `execute_submission` returns; a panic arrives as `Errored(OtherError)`. */
  datatype BackendResult = Finished(output: int) | Errored(error: BackendError)

  /** What the result cell publishes. */
  datatype Outcome =
    | Output(output: int)
    | BackendFailure(error: BackendError)
    | DeadlineFailure
    | CancelledFailure
    | InternalFailure

  datatype Control = Control(
    deadline: Option<nat>,
    supervised: bool,
    lifecycle: Lifecycle,
    reason: Option<CancelReason>)
  {
    predicate Due(now: nat) {
      deadline.Some? && deadline.value <= now
    }
  }

  function MarkAccepted(c: Control): Control {
    if c.lifecycle.Queued? then c.(lifecycle := AcceptedNotStarted) else c
  }

  /** The task thread asks to start; `false` leaves the task to be closed unstarted. */
  function BeginStart(c: Control, now: nat): (Control, bool) {
    if c.lifecycle.Terminal() || c.reason.Some? then (c, false)
    else if c.Due(now) then (c.(reason := Some(Deadline), lifecycle := Cancelling), false)
    else if c.supervised then (c, true)
    else (c.(lifecycle := Started), true)
  }

  function MarkStarted(c: Control): Control {
    if c.lifecycle.AcceptedNotStarted? && c.reason.None? then c.(lifecycle := Started) else c
  }

  function MarkCancelling(c: Control, reason: CancelReason): (Control, CancelOutcome) {
    if c.lifecycle.Terminal() then (c, AlreadyTerminal)
    else if c.reason.Some? then (c, AlreadyRequested)
    else (c.(reason := Some(reason), lifecycle := Cancelling), Requested)
  }

  function MarkTerminal(c: Control, lifecycle: Lifecycle): (Control, bool) {
    if c.lifecycle.Terminal() then (c, false) else (c.(lifecycle := lifecycle), true)
  }

  function ClosingOutcome(reason: Option<CancelReason>): Outcome {
    match reason
    case Some(Deadline) => DeadlineFailure
    case Some(_) => CancelledFailure
    case None => InternalFailure
  }

  /** The terminal state and outcome chosen for a backend result. */
  function Verdict(reason: Option<CancelReason>, result: BackendResult): (Lifecycle, Outcome) {
    match result
    case Errored(SupervisorTimeout) => (Terminated, BackendFailure(SupervisorTimeout))
    case Errored(SupervisorInfrastructure) => (Failed, BackendFailure(SupervisorInfrastructure))
    case _ =>
      match reason
      case Some(Deadline) => (Terminated, DeadlineFailure)
      case Some(_) => (Terminated, CancelledFailure)
      case None =>
        match result
        case Finished(v) => (Completed, Output(v))
        case Errored(RuntimeTimeout) => (Terminated, BackendFailure(RuntimeTimeout))
        case Errored(e) => (Failed, BackendFailure(e))
  }

  function Resolve(c: Control, result: BackendResult): Option<(Control, Outcome)> {
    if c.lifecycle.Terminal() then None
    else
      var (lifecycle, outcome) := Verdict(c.reason, result);
      Some((c.(lifecycle := lifecycle), outcome))
  }

  // ---- what callers are promised ----

  /** What a caller is told of a task that was cancelled for `why`. */
  function FailureOf(why: CancelReason): Outcome {
    if why.Deadline? then DeadlineFailure else CancelledFailure
  }

  /** A supervisor that timed out or broke down is reported whatever else was asked. */
  predicate Overrides(r: BackendResult) {
    r == Errored(SupervisorTimeout) || r == Errored(SupervisorInfrastructure)
  }

  /** What a caller is told when the backend answers `r` to a task with that cancel reason. */
  function AnswerTo(reason: Option<CancelReason>, r: BackendResult): Outcome {
    if Overrides(r) then BackendFailure(r.error)
    else if reason.Some? then FailureOf(reason.value)
    else if r.Finished? then Output(r.output)
    else BackendFailure(r.error)
  }

  /** The terminal state a task told `outcome` ends in. */
  function EndOf(outcome: Outcome): Lifecycle {
    match outcome
    case Output(_) => Completed
    case BackendFailure(error) => if error.SupervisorTimeout? || error.RuntimeTimeout? then Terminated else Failed
    case DeadlineFailure => Terminated
    case CancelledFailure => Terminated
    case InternalFailure => Failed
  }

  /** The verdict is the answer callers are promised, and the state that goes with it. */
  lemma VerdictIsAnswer(reason: Option<CancelReason>, result: BackendResult)
    ensures Verdict(reason, result) == (EndOf(AnswerTo(reason, result)), AnswerTo(reason, result))
  {
  }

  /** A task completes exactly when the backend finished and nobody had asked to cancel it. */
  lemma CompletedExactly(c: Control, result: BackendResult)
    requires !c.lifecycle.Terminal()
    ensures var r := Resolve(c, result);
            && r.Some? && r.value.0.lifecycle.Terminal()
            && (r.value.0.lifecycle.Completed? <==> result.Finished? && c.reason.None?)
            && (r.value.0.lifecycle.Completed? <==> r.value.1.Output?)
            && (r.value.0.lifecycle.Completed? ==> r.value.1 == Output(result.output))
  {
  }
}

/** The control block as the source keeps it: fields updated in place under the task lock. */
module TaskControls {
  import opened Wrappers
  import opened Tasks

  class TaskControl {
    const id: nat
    const deadline: Option<nat>
    const supervised: bool
    var lifecycle: Lifecycle
    var reason: Option<CancelReason>

    ghost function State(): Control
      reads this
    {
      Control(deadline, supervised, lifecycle, reason)
    }

    constructor (id: nat, deadline: Option<nat>, supervised: bool)
      ensures this.id == id && State() == Control(deadline, supervised, Queued, None)
    {
      this.id := id;
      this.deadline := deadline;
      this.supervised := supervised;
      lifecycle := Queued;
      reason := None;
    }

    method MarkAccepted()
      modifies this
      ensures State() == Tasks.MarkAccepted(old(State()))
    {
      if lifecycle == Queued {
        lifecycle := AcceptedNotStarted;
      }
    }

    method BeginStart(now: nat) returns (ok: bool)
      modifies this
      ensures (State(), ok) == Tasks.BeginStart(old(State()), now)
      ensures var startable := !old(lifecycle).Terminal() && old(reason).None?;
              var past := deadline.Some? && deadline.value <= now;
              && (ok <==> startable && !past)
              && reason == (if startable && past then Some(Deadline) else old(reason))
              && lifecycle == (if startable && past then Cancelling
                               else if startable && !supervised then Started else old(lifecycle))
    {
      if lifecycle.Terminal() || reason.Some? {
        return false;
      }
      if deadline.Some? && deadline.value <= now {
        reason := Some(Deadline);
        lifecycle := Cancelling;
        return false;
      }
      if !supervised {
        lifecycle := Started;
      }
      return true;
    }

    method MarkStarted()
      modifies this
      ensures State() == Tasks.MarkStarted(old(State()))
      ensures reason == old(reason)
      ensures lifecycle == if old(lifecycle).AcceptedNotStarted? && old(reason).None? then Started else old(lifecycle)
    {
      if lifecycle == AcceptedNotStarted && reason == None {
        lifecycle := Started;
      }
    }

    method MarkCancelling(why: CancelReason) returns (outcome: CancelOutcome)
      modifies this
      ensures (State(), outcome) == Tasks.MarkCancelling(old(State()), why)
      ensures outcome.AlreadyTerminal? <==> old(lifecycle).Terminal()
      ensures outcome.AlreadyRequested? <==> !old(lifecycle).Terminal() && old(reason).Some?
      ensures outcome.Requested? ==> reason == Some(why) && lifecycle == Cancelling
      ensures !outcome.Requested? ==> State() == old(State())
    {
      if lifecycle.Terminal() {
        return AlreadyTerminal;
      }
      if reason.Some? {
        return AlreadyRequested;
      }
      reason := Some(why);
      lifecycle := Cancelling;
      return Requested;
    }

    method MarkTerminal(target: Lifecycle) returns (ok: bool)
      modifies this
      ensures (State(), ok) == Tasks.MarkTerminal(old(State()), target)
      ensures ok <==> !old(lifecycle).Terminal()
      ensures reason == old(reason) && lifecycle == if ok then target else old(lifecycle)
    {
      if lifecycle.Terminal() {
        return false;
      }
      lifecycle := target;
      return true;
    }

    method ResolveBackendResult(result: BackendResult) returns (r: Option<(Lifecycle, Outcome)>)
      modifies this
      ensures var spec := Tasks.Resolve(old(State()), result);
              if spec.None? then r == None && State() == old(State())
              else State() == spec.value.0 && r == Some((State().lifecycle, spec.value.1))
      ensures r.None? <==> old(lifecycle).Terminal()
      ensures r.Some? ==> r.value.1 == AnswerTo(old(reason), result) && lifecycle == r.value.0 == EndOf(r.value.1)
      ensures reason == old(reason)
    {
      if lifecycle.Terminal() {
        return None;
      }
      var failure :=
        if result.Errored? && (result.error.SupervisorTimeout? || result.error.SupervisorInfrastructure?)
        then Some(result.error) else None;
      var outcome;
      if failure.Some? {
        lifecycle := if failure.value.SupervisorTimeout? then Terminated else Failed;
        outcome := BackendFailure(failure.value);
      } else if reason == Some(Deadline) {
        lifecycle, outcome := Terminated, DeadlineFailure;
      } else if reason.Some? {
        lifecycle, outcome := Terminated, CancelledFailure;
      } else if result.Finished? {
        lifecycle, outcome := Completed, Output(result.output);
      } else {
        lifecycle := if result.error.RuntimeTimeout? then Terminated else Failed;
        outcome := BackendFailure(result.error);
      }
      return Some((lifecycle, outcome));
    }
  }
}
