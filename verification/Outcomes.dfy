/**
  What a caller is told, and why: over whole runs, every published outcome, every cancel
  reason and every invocation of a backend has its cause, and every cause has its effect.
 */
module Outcomes {
  import opened Wrappers
  import opened Tasks
  import opened Admission
  import opened Scheduling
  import opened Conservation
  import opened Fifo
  import opened Managers
  import opened SchedulerInvariant
  import opened SchedulerTheorems
  import opened TaskSteps

  // ---- steps ----

  /** What a shutdown call counted when it was made stays what it counted. */
  predicate CallsStay(s: State, s': State) {
    forall k :: k in s.shutdowns ==>
      && k in s'.shutdowns
      && s'.shutdowns[k].queued == s.shutdowns[k].queued && s'.shutdowns[k].accepted == s.shutdowns[k].accepted
  }

  lemma StepKeepsCalls(limits: Limits, s: State, e: Event)
    requires Enabled(limits, s, e)
    ensures CallsStay(s, Apply(limits, s, e))
  {
    if OfOneTask(e) {
      OneTaskKeepsReasons(limits, s, e);
    } else if Bookkeeping(e) {
      BookkeepingLeavesShutdowns(limits, s, e);
    } else if Quiet(e) {
      MovesKeepCalls(limits, s, e);
    } else if e.ManagerPass? {
      PassLeavesCalls(limits, s, e.m);
    } else {
      SectionsKeepCalls(limits, s, e);
    }
  }

  lemma MovesKeepCalls(limits: Limits, s: State, e: Event)
    requires Enabled(limits, s, e)
    requires e.ShutdownIdle? || e.ShutdownGraceOver? || e.ShutdownCollects? || e.ShutdownReturns?
    ensures CallsStay(s, Apply(limits, s, e))
  {
    match e
    case ShutdownIdle(_) =>
    case ShutdownGraceOver(_) =>
    case ShutdownCollects(_) =>
    case ShutdownReturns(_) =>
  }

  lemma SectionsKeepCalls(limits: Limits, s: State, e: Event)
    requires Enabled(limits, s, e) && !OfOneTask(e) && !Quiet(e) && !e.ManagerPass?
    ensures CallsStay(s, Apply(limits, s, e))
  {
    match e
    case SubmitSection(a, deadline, supervised) => SubmitShape(limits, s, a, deadline, supervised);
    case FailPendingSection(_) =>
    case DispatchTask(_, _) =>
    case CancelSection(_, _) =>
    case ShutdownSection(k, late) => NewCallKeepsCalls(s, k, late);
    case ShutdownRequests(k, id) => RequestKeepsCalls(s, k, id);
  }

  lemma NewCallKeepsCalls(s: State, k: nat, late: set<nat>)
    requires k !in s.shutdowns
    ensures CallsStay(s, ApplyShutdown(s, k, late))
  {
  }

  lemma RequestKeepsCalls(s: State, k: nat, id: nat)
    requires k in s.shutdowns && s.shutdowns[k].pc.Requesting? && HasPhase(s, id)
    ensures CallsStay(s, ApplyShutdownRequest(s, k, id))
  {
  }

  lemma PassLeavesCalls(limits: Limits, s: State, m: nat)
    ensures ApplyPass(limits, s, m).shutdowns == s.shutdowns
  {
    PassFrame(limits, s);
  }

  /** A task an event creates: not started, not cancelled and told nothing. */
  lemma NewTaskIsBlank(limits: Limits, s: State, e: Event, id: nat)
    requires Enabled(limits, s, e) && id !in s.core.controls && id in Apply(limits, s, e).core.controls
    ensures e.SubmitSection? && id == s.core.nextId
    ensures var s' := Apply(limits, s, e);
            && HasPhase(s', id) && Told(s'.owners[id]).None? && !s'.owners[id].invoked && !s'.owners[id].phase.Closing?
            && s'.core.controls[id].reason.None? && s'.core.controls[id].lifecycle in {Queued, AcceptedNotStarted}
  {
    OnlySubmitCreates(limits, s, e, id);
    SubmittedIsBlank(limits, s, e.a, e.deadline, e.supervised, id);
  }

  lemma SubmittedIsBlank(limits: Limits, s: State, a: nat, deadline: Option<nat>, supervised: bool, id: nat)
    requires s.core.nextId < MAX_ID && id !in s.core.controls
    requires id in ApplySubmit(limits, s, a, deadline, supervised).core.controls
    ensures id == s.core.nextId
    ensures var s' := ApplySubmit(limits, s, a, deadline, supervised);
            && HasPhase(s', id) && Told(s'.owners[id]).None? && !s'.owners[id].invoked && !s'.owners[id].phase.Closing?
            && s'.core.controls[id].reason.None? && s'.core.controls[id].lifecycle in {Queued, AcceptedNotStarted}
  {
    SubmitShape(limits, s, a, deadline, supervised);
  }

  lemma OnlySubmitCreates(limits: Limits, s: State, e: Event, id: nat)
    requires Enabled(limits, s, e) && id !in s.core.controls && id in Apply(limits, s, e).core.controls
    ensures e.SubmitSection?
  {
    if OfOneTask(e) {
      OneTaskFrame(limits, s, e);
    } else if Quiet(e) {
      QuietChangesNothing(limits, s, e);
    } else if e.ManagerPass? {
      PromoteCreatesNothing(limits, SweepState(s));
    } else if !e.SubmitSection? {
      SectionsCreateNothing(limits, s, e, id);
    }
  }

  lemma SectionsCreateNothing(limits: Limits, s: State, e: Event, id: nat)
    requires Enabled(limits, s, e) && !OfOneTask(e) && !Quiet(e) && !e.SubmitSection? && !e.ManagerPass?
    requires id !in s.core.controls
    ensures id !in Apply(limits, s, e).core.controls
  {
    match e
    case FailPendingSection(_) =>
    case DispatchTask(_, _) =>
    case CancelSection(_, _) =>
    case ShutdownSection(_, _) =>
    case ShutdownRequests(_, _) =>
  }

  lemma {:induction false} PromoteCreatesNothing(limits: Limits, s: State)
    ensures PromoteState(limits, s).core.controls.Keys == s.core.controls.Keys
    decreases |s.core.queue|
  {
    if CanPromote(limits, s.core) {
      PromoteCreatesNothing(limits, PromoteOneState(s));
    }
  }

  // ---- what a task's reason and state say about what it is told ----

  /** Taken from the queue by a shutdown call, and so never admitted. */
  predicate Drained(s: State, id: nat) {
    exists k :: k in s.shutdowns && id in s.shutdowns[k].queued
  }

  predicate Reasons(t: Control, outcome: Outcome, drained: bool) {
    match outcome
    case Output(_) => t.reason.None? && t.lifecycle.Terminal()
    case BackendFailure(error) =>
      t.lifecycle.Terminal() && (error.SupervisorTimeout? || error.SupervisorInfrastructure? || t.reason.None?)
    case DeadlineFailure => t.reason == Some(Deadline)
    case CancelledFailure => t.reason == Some(User) || t.reason == Some(Shutdown) || drained
    case InternalFailure => true
  }

  predicate Explained(s: State, id: nat)
    requires HasPhase(s, id)
  {
    var t, o := s.core.controls[id], s.owners[id];
    && Aims(o)
    && (t.lifecycle.Terminal() ==> Told(o).Some? && t.lifecycle == EndOf(Told(o).value))
    && (Told(o).Some? ==> Reasons(t, Told(o).value, Drained(s, id)))
  }

  lemma DrainedStays(s: State, s': State, id: nat)
    requires CallsStay(s, s') && Drained(s, id)
    ensures Drained(s', id)
  {
    var k :| k in s.shutdowns && id in s.shutdowns[k].queued;
    assert k in s'.shutdowns && id in s'.shutdowns[k].queued;
  }

  lemma StepExplains(limits: Limits, s: State, e: Event, id: nat)
    requires Inv(limits, s) && Enabled(limits, s, e) && id in s.core.controls && HasPhase(s, id) && Explained(s, id)
    ensures HasPhase(Apply(limits, s, e), id) && Explained(Apply(limits, s, e), id)
  {
    var s' := Apply(limits, s, e);
    EveryTaskSteps(limits, s, e, id);
    StepKeepsCalls(limits, s, e);
    DrainsAreRecorded(limits, s, e, id);
    SlotsAreForTheUntold(limits, s, e, id);
    OwnersFit(limits, s, e, id);
    TaskStepExplains(s, e, s', id, id !in s.core.active && id in s'.core.active);
  }

  lemma OwnersFit(limits: Limits, s: State, e: Event, id: nat)
    requires Inv(limits, s) && Enabled(limits, s, e) && HasPhase(s, id)
    ensures TaskAt(s.core, s.owners, id)
    ensures e.TaskResolves? && e.id == id ==> Told(s.owners[id]).None?
    ensures e.OwnerMarksTerminal? && e.id == id ==> s.owners[id].phase.Closing?
  {
  }

  lemma DrainsAreRecorded(limits: Limits, s: State, e: Event, id: nat)
    requires Enabled(limits, s, e)
    ensures e.ShutdownSection? && id in s.core.queue ==> Drained(Apply(limits, s, e), id)
  {
    if e.ShutdownSection? && id in s.core.queue {
      assert id in Apply(limits, s, e).shutdowns[e.k].queued;
    }
  }

  /** Only the manager's pass gives slots, and only to waiting tasks. */
  lemma SlotsAreForTheUntold(limits: Limits, s: State, e: Event, id: nat)
    requires Inv(limits, s) && Enabled(limits, s, e) && HasPhase(s, id)
    ensures id !in s.core.active && id in Apply(limits, s, e).core.active ==>
              e.ManagerPass? && id in s.core.queue && Told(s.owners[id]).None?
  {
    assert TaskAt(s.core, s.owners, id);
    if id in s.core.active {
    } else if e.ManagerPass? {
      PassSlots(limits, s, e.m, id);
    } else {
      OthersGiveNoSlot(limits, s, e, id);
    }
  }

  lemma PassSlots(limits: Limits, s: State, m: nat, id: nat)
    requires Inv(limits, s) && HasPhase(s, id) && id !in s.core.active
    ensures id in ApplyPass(limits, s, m).core.active ==> id in s.core.queue
  {
    SweepKeeps(limits, s);
    SweepKeepsOrder(s);
    PassHands(limits, SweepState(s), id);
    KeptMembers(s.core.queue, s.core.controls, s.now);
  }

  lemma OthersGiveNoSlot(limits: Limits, s: State, e: Event, id: nat)
    requires Inv(limits, s) && Enabled(limits, s, e) && HasPhase(s, id) && !e.ManagerPass?
    ensures id in Apply(limits, s, e).core.active ==> id in s.core.active
  {
    if OfOneTask(e) {
      OneTaskKeepsReasons(limits, s, e);
    } else if Quiet(e) {
      QuietChangesNothing(limits, s, e);
    } else {
      SectionsGiveNoSlot(limits, s, e, id);
    }
  }

  lemma SectionsGiveNoSlot(limits: Limits, s: State, e: Event, id: nat)
    requires Known(s.core) && Enabled(limits, s, e) && HasPhase(s, id) && !OfOneTask(e) && !Quiet(e) && !e.ManagerPass?
    ensures id in Apply(limits, s, e).core.active ==> id in s.core.active
  {
    match e
    case SubmitSection(a, deadline, supervised) => SubmitShape(limits, s, a, deadline, supervised);
    case FailPendingSection(_) =>
    case DispatchTask(_, _) =>
    case CancelSection(_, _) =>
    case ShutdownSection(_, _) =>
    case ShutdownRequests(_, _) =>
  }

  lemma TaskStepExplains(s: State, e: Event, s': State, id: nat, promoted: bool)
    requires HasPhase(s, id) && TaskAt(s.core, s.owners, id) && Explained(s, id)
    requires TaskStep(s, e, s', id, promoted) && CallsStay(s, s')
    requires e.ShutdownSection? && id in s.core.queue ==> Drained(s', id)
    requires promoted ==> Told(s.owners[id]).None?
    requires e.TaskResolves? && e.id == id ==> Told(s.owners[id]).None?
    requires e.OwnerMarksTerminal? && e.id == id ==> s.owners[id].phase.Closing?
    ensures Explained(s', id)
  {
    if Drained(s, id) {
      DrainedStays(s, s', id);
    }
    if Told(s.owners[id]).Some? {
      StaysTold(s, e, s', id, promoted);
    } else if OutcomeOf(s, e, id).Some? {
      FirstTold(s, e, s', id, promoted);
    }
  }

  lemma StaysTold(s: State, e: Event, s': State, id: nat, promoted: bool)
    requires HasPhase(s, id) && TaskAt(s.core, s.owners, id) && Explained(s, id) && Told(s.owners[id]).Some?
    requires TaskStep(s, e, s', id, promoted) && (Drained(s, id) ==> Drained(s', id))
    requires !promoted
    requires e.TaskResolves? && e.id == id ==> Told(s.owners[id]).None?
    ensures Explained(s', id)
  {
  }

  /** The event that decides the outcome leaves a reason and a state that fit it. */
  lemma FirstTold(s: State, e: Event, s': State, id: nat, promoted: bool)
    requires HasPhase(s, id) && TaskStep(s, e, s', id, promoted)
    requires OutcomeOf(s, e, id).Some? && !s.core.controls[id].lifecycle.Terminal()
    requires Waits(s.core, id) ==> s.core.controls[id].reason.None?
    requires e.ShutdownSection? && id in s.core.queue ==> Drained(s', id)
    ensures Reasons(s'.core.controls[id], OutcomeOf(s, e, id).value, Drained(s', id))
  {
  }

  // ---- runs, one task at a time ----

  predicate Blank(s: State, id: nat) {
    && HasPhase(s, id)
    && Told(s.owners[id]).None? && !s.owners[id].invoked
    && s.core.controls[id].reason.None? && !s.owners[id].phase.Closing?
    && s.core.controls[id].lifecycle in {Queued, AcceptedNotStarted}
  }

  ghost predicate Stepped(s: State, e: Event, s': State, id: nat) {
    HasPhase(s, id) && TaskStep(s, e, s', id, id !in s.core.active && id in s'.core.active)
  }

  /** A task of a reachable state was created by the last event, or that event was one of its steps. */
  lemma StepBack(limits: Limits, states: seq<State>, events: seq<Event>, i: nat, id: nat)
    requires IsRun(limits, states, events) && i < |states| && id in states[i].core.controls
    ensures i > 0 && HasPhase(states[i], id)
    ensures if id in states[i - 1].core.controls then Stepped(states[i - 1], events[i - 1], states[i], id)
            else Blank(states[i], id)
  {
    RunKeepsInv(limits, states, events, i - 1);
    if id in states[i - 1].core.controls {
      EveryTaskSteps(limits, states[i - 1], events[i - 1], id);
    } else {
      NewTaskIsBlank(limits, states[i - 1], events[i - 1], id);
    }
  }

  /** Every task of a reachable state takes a step of its own with every event. */
  lemma StepOn(limits: Limits, states: seq<State>, events: seq<Event>, i: nat, id: nat)
    requires IsRun(limits, states, events) && i < |events|
    requires id in states[i].core.controls || id in states[i].owners
    ensures Stepped(states[i], events[i], states[i + 1], id) && TaskAt(states[i].core, states[i].owners, id)
  {
    RunKeepsInv(limits, states, events, i);
    EveryTaskSteps(limits, states[i], events[i], id);
  }

  lemma PublishedIsTold(limits: Limits, states: seq<State>, events: seq<Event>, i: nat, id: nat)
    requires IsRun(limits, states, events) && i < |states|
    requires id in states[i].owners && states[i].owners[id].result.Some?
    ensures HasPhase(states[i], id) && Told(states[i].owners[id]) == states[i].owners[id].result
    ensures states[i].core.controls[id].lifecycle.Terminal()
  {
    RunKeepsInv(limits, states, events, i);
    assert TaskAt(states[i].core, states[i].owners, id);
  }

  lemma {:induction false} AlwaysExplained(limits: Limits, states: seq<State>, events: seq<Event>, i: nat, id: nat)
    requires IsRun(limits, states, events) && i < |states| && id in states[i].core.controls
    ensures HasPhase(states[i], id) && Explained(states[i], id)
  {
    StepBack(limits, states, events, i, id);
    if id in states[i - 1].core.controls {
      AlwaysExplained(limits, states, events, i - 1, id);
      NextIsExplained(limits, states, events, i - 1, id);
    }
  }

  lemma NextIsExplained(limits: Limits, states: seq<State>, events: seq<Event>, i: nat, id: nat)
    requires IsRun(limits, states, events) && i < |events| && HasPhase(states[i], id) && Explained(states[i], id)
    ensures HasPhase(states[i + 1], id) && Explained(states[i + 1], id)
  {
    RunKeepsInv(limits, states, events, i);
    StepExplains(limits, states[i], events[i], id);
  }

  // ---- what callers are told ----

  /**
    A published result and the task's final state and reason agree: an output for a task
    completed and never cancelled, a deadline failure for one cancelled for its deadline, a
    cancellation for one cancelled by its user or by a shutdown (a shutdown gives no reason to
    the tasks it takes from the queue), the backend's own failure for one nobody cancelled or
    whose supervisor failed, an internal failure for one the executor could not run.
   */
  lemma ResultsTellWhy(limits: Limits, states: seq<State>, events: seq<Event>, i: nat, id: nat)
    requires IsRun(limits, states, events) && i < |states| && id in states[i].owners
    requires states[i].owners[id].result.Some?
    ensures id in states[i].core.controls
    ensures var t := states[i].core.controls[id];
            match states[i].owners[id].result.value
            case Output(_) => t.lifecycle == Completed && t.reason == None
            case DeadlineFailure => t.lifecycle == Terminated && t.reason == Some(Deadline)
            case CancelledFailure =>
              t.lifecycle == Terminated && (t.reason == Some(User) || t.reason == Some(Shutdown) || Drained(states[i], id))
            case BackendFailure(error) =>
              && t.lifecycle == (if error in {SupervisorTimeout, RuntimeTimeout} then Terminated else Failed)
              && (error in {SupervisorTimeout, SupervisorInfrastructure} || t.reason == None)
            case InternalFailure => t.lifecycle == Failed
  {
    PublishedIsTold(limits, states, events, i, id);
    AlwaysExplained(limits, states, events, i, id);
  }

  /** At step `n` the outcome of the task is decided, and it is `outcome`. */
  ghost predicate Decides(s: State, e: Event, id: nat, outcome: Outcome) {
    HasPhase(s, id) && Told(s.owners[id]).None? && OutcomeOf(s, e, id) == Some(outcome)
  }

  /** Every result was decided by one event of the run. */
  lemma {:induction false} ResultsHaveACause(limits: Limits, states: seq<State>, events: seq<Event>, i: nat, id: nat)
    returns (n: nat)
    requires IsRun(limits, states, events) && i < |states| && HasPhase(states[i], id)
    requires Told(states[i].owners[id]).Some?
    ensures n < i && Decides(states[n], events[n], id, Told(states[i].owners[id]).value)
  {
    StepBack(limits, states, events, i, id);
    if Told(states[i - 1].owners[id]).Some? {
      n := ResultsHaveACause(limits, states, events, i - 1, id);
      StaysTheSame(states[i - 1], events[i - 1], states[i], id);
    } else {
      n := i - 1;
      FirstDecides(states[n], events[n], states[i], id);
    }
  }

  lemma StaysTheSame(s: State, e: Event, s': State, id: nat)
    requires Stepped(s, e, s', id) && Told(s.owners[id]).Some?
    ensures HasPhase(s', id) && Told(s'.owners[id]) == Told(s.owners[id])
  {
  }

  lemma FirstDecides(s: State, e: Event, s': State, id: nat)
    requires Stepped(s, e, s', id) && Told(s.owners[id]).None? && Told(s'.owners[id]).Some?
    ensures Decides(s, e, id, Told(s'.owners[id]).value)
  {
  }

  /** What one event decided is what is published. */
  lemma {:induction false} CauseDecidesResult(
      limits: Limits, states: seq<State>, events: seq<Event>, n: nat, i: nat, id: nat, outcome: Outcome)
    requires IsRun(limits, states, events) && n < i < |states| && Decides(states[n], events[n], id, outcome)
    ensures HasPhase(states[i], id) && Told(states[i].owners[id]) == Some(outcome)
    ensures states[i].owners[id].result.Some? ==> states[i].owners[id].result == Some(outcome)
    decreases i
  {
    if n < i - 1 {
      CauseDecidesResult(limits, states, events, n, i - 1, id, outcome);
      StepOn(limits, states, events, i - 1, id);
      StaysTheSame(states[i - 1], events[i - 1], states[i], id);
    } else {
      StepOn(limits, states, events, n, id);
      DecidedIsTold(states[n], events[n], states[i], id, outcome);
    }
    if states[i].owners[id].result.Some? {
      PublishedIsTold(limits, states, events, i, id);
    }
  }

  lemma DecidedIsTold(s: State, e: Event, s': State, id: nat, outcome: Outcome)
    requires Stepped(s, e, s', id) && Decides(s, e, id, outcome)
    ensures HasPhase(s', id) && Told(s'.owners[id]) == Some(outcome)
  {
  }

  /** The backend's answer reaches the caller, unless a cancellation came first; a supervisor's failure always does. */
  lemma BackendAnswerIsPublished(
      limits: Limits, states: seq<State>, events: seq<Event>, n: nat, i: nat, id: nat, r: BackendResult)
    requires IsRun(limits, states, events) && n < i < |states| && events[n] == TaskResolves(id, r)
    ensures HasPhase(states[n], id) && id in states[i].owners
    ensures var result := states[i].owners[id].result;
            result.Some? ==>
              if r == Errored(SupervisorTimeout) || r == Errored(SupervisorInfrastructure)
              then result == Some(BackendFailure(r.error))
              else match states[n].core.controls[id].reason
                   case Some(Deadline) => result == Some(DeadlineFailure)
                   case Some(User) => result == Some(CancelledFailure)
                   case Some(Shutdown) => result == Some(CancelledFailure)
                   case None => result == Some(if r.Finished? then Output(r.output) else BackendFailure(r.error))
  {
    RunKeepsInv(limits, states, events, n);
    assert TaskAt(states[n].core, states[n].owners, id);
    CauseDecidesResult(limits, states, events, n, i, id, AnswerTo(states[n].core.controls[id].reason, r));
  }

  /** Nobody but the backend is the source of an output or of a backend failure. */
  lemma BackendSaidSo(limits: Limits, states: seq<State>, events: seq<Event>, i: nat, id: nat)
    requires IsRun(limits, states, events) && i < |states| && id in states[i].owners
    requires states[i].owners[id].result.Some?
    ensures match states[i].owners[id].result.value
            case Output(v) => exists n :: 0 <= n < i && events[n] == TaskResolves(id, Finished(v))
            case BackendFailure(error) => exists n :: 0 <= n < i && events[n] == TaskResolves(id, Errored(error))
            case _ => true
  {
    PublishedIsTold(limits, states, events, i, id);
    var n := ResultsHaveACause(limits, states, events, i, id);
    CauseOfAnswers(states[n], events[n], id, states[i].owners[id].result.value);
  }

  lemma CauseOfAnswers(s: State, e: Event, id: nat, outcome: Outcome)
    requires Decides(s, e, id, outcome)
    ensures outcome.Output? ==> e == TaskResolves(id, Finished(outcome.output))
    ensures outcome.BackendFailure? ==> e == TaskResolves(id, Errored(outcome.error))
  {
  }

  /** What becomes of a task that is taken while it waits. */
  lemma WaitingTasksAreTold(limits: Limits, states: seq<State>, events: seq<Event>, n: nat, i: nat, id: nat)
    requires IsRun(limits, states, events) && n < i < |states|
    requires id in states[n].core.queue || id in states[n].core.ready
    ensures id in states[n].core.controls && id in states[i].owners
    ensures var e, t, result := events[n], states[n].core.controls[id], states[i].owners[id].result;
            result.Some? ==>
              && (e == CancelSection(id, User) || e == CancelSection(id, Shutdown) || e.ShutdownSection? ==>
                    result == Some(CancelledFailure))
              && (e == CancelSection(id, Deadline) ==> result == Some(DeadlineFailure))
              && (e.ManagerPass? && t.deadline.Some? && t.deadline.value <= states[n].now ==> result == Some(DeadlineFailure))
              && (e.FailPendingSection? ==> result == Some(InternalFailure))
  {
    WaitingIsKnown(limits, states, events, n, i, id);
    TakenWhileWaiting(states[n], events[n], id);
    var told := OutcomeOf(states[n], events[n], id);
    if told.Some? {
      CauseDecidesResult(limits, states, events, n, i, id, told.value);
    }
  }

  lemma WaitingIsKnown(limits: Limits, states: seq<State>, events: seq<Event>, n: nat, i: nat, id: nat)
    requires IsRun(limits, states, events) && n < i < |states| && Waits(states[n].core, id)
    ensures HasPhase(states[n], id) && HasPhase(states[i], id) && Told(states[n].owners[id]).None?
  {
    RunKeepsInv(limits, states, events, n);
    RunSettles(limits, states, events, n, i);
    WaitingIsUntold(states[n], id);
    assert HasPhase(states[n], id);
  }

  lemma TakenWhileWaiting(s: State, e: Event, id: nat)
    requires HasPhase(s, id) && Waits(s.core, id)
    ensures var told := OutcomeOf(s, e, id);
            && (e == CancelSection(id, User) || e == CancelSection(id, Shutdown) || e.ShutdownSection? ==>
                  told == Some(CancelledFailure))
            && (e == CancelSection(id, Deadline) ==> told == Some(DeadlineFailure))
            && (e.ManagerPass? && Past(s.core.controls[id], s.now) ==> told == Some(DeadlineFailure))
            && (e.FailPendingSection? ==> told == Some(InternalFailure))
  {
  }

  /** What becomes of a task whose thread cannot be started, or dies outside the backend. */
  lemma LostTasksAreTold(limits: Limits, states: seq<State>, events: seq<Event>, n: nat, i: nat, id: nat)
    requires IsRun(limits, states, events) && n < i < |states|
    requires events[n] == TaskPanics(id) ||
             (events[n].DispatchTask? && !events[n].ok && ManagerAt(states[n], events[n].m, SpawningTask(id)))
    ensures id in states[i].owners
    ensures states[i].owners[id].result.Some? ==> states[i].owners[id].result == Some(InternalFailure)
  {
    RunKeepsInv(limits, states, events, n);
    if events[n].DispatchTask? {
      assert Carries(states[n].managers[events[n].m]) == Some(id);
    }
    assert TaskAt(states[n].core, states[n].owners, id);
    CauseDecidesResult(limits, states, events, n, i, id, InternalFailure);
  }
}
