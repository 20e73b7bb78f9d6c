/**
  When a backend starts and why a task is cancelled: no start past a deadline or a
  cancellation, no cancellation without its cause.
 */
module Cancellations {
  import opened Wrappers
  import opened Tasks
  import opened Admission
  import opened Scheduling
  import opened Conservation
  import opened Managers
  import opened SchedulerInvariant
  import opened TaskSteps
  import opened Outcomes

  // ---- starting ----

  /**
    A task's thread invokes the backend exactly when the task is not over, nobody cancelled
    it and its deadline is still to come; a late one is cancelled for its deadline instead.
    An in-process task is `Started` from then on, a supervised one stays as it was.
   */
  lemma BackendsStartInTime(limits: Limits, states: seq<State>, events: seq<Event>, i: nat, id: nat)
    requires IsRun(limits, states, events) && i < |events| && events[i] == TaskBegins(id)
    ensures HasPhase(states[i], id) && HasPhase(states[i + 1], id)
    ensures var t, t', now := states[i].core.controls[id], states[i + 1].core.controls[id], states[i].now;
            var inTime := t.deadline.None? || now < t.deadline.value;
            && !states[i].owners[id].invoked
            && (states[i + 1].owners[id].invoked <==> !t.lifecycle.Terminal() && t.reason == None && inTime)
            && (t.reason == None && !inTime ==> t'.reason == Some(Deadline) && t'.lifecycle == Cancelling)
            && (states[i + 1].owners[id].invoked ==> t'.lifecycle == (if t.supervised then t.lifecycle else Started))
  {
    assert Enabled(limits, states[i], events[i]);
    StepOn(limits, states, events, i, id);
  }

  lemma OwnedIsKnown(limits: Limits, states: seq<State>, events: seq<Event>, i: nat, id: nat)
    requires IsRun(limits, states, events) && i < |states| && id in states[i].owners
    ensures HasPhase(states[i], id)
  {
    RunKeepsInv(limits, states, events, i);
  }

  /** A backend that has been invoked was invoked by its task's thread, before the deadline and before any cancellation. */
  lemma {:induction false} InvokedInTime(limits: Limits, states: seq<State>, events: seq<Event>, i: nat, id: nat)
    returns (n: nat)
    requires IsRun(limits, states, events) && i < |states| && id in states[i].owners && states[i].owners[id].invoked
    ensures n < i && events[n] == TaskBegins(id) && HasPhase(states[n], id)
    ensures var t := states[n].core.controls[id];
            t.reason == None && (t.deadline.None? || states[n].now < t.deadline.value)
  {
    OwnedIsKnown(limits, states, events, i, id);
    StepBack(limits, states, events, i, id);
    var s := states[i - 1];
    if s.owners[id].invoked {
      n := InvokedInTime(limits, states, events, i - 1, id);
    } else {
      n := i - 1;
    }
  }

  /** A task is `Started` because its thread invoked an in-process backend or its supervised child reported. */
  lemma {:induction false} StartedForAReason(limits: Limits, states: seq<State>, events: seq<Event>, i: nat, id: nat)
    returns (n: nat)
    requires IsRun(limits, states, events) && i < |states| && id in states[i].core.controls
    requires states[i].core.controls[id].lifecycle.Started?
    ensures n < i && HasPhase(states[n], id) && states[n].core.controls[id].reason == None
    ensures events[n] == if events[n].TaskBegins? then TaskBegins(id) else TaskReportsStarted(id)
    ensures states[n].core.controls[id].supervised ==> events[n] == TaskReportsStarted(id)
  {
    StepBack(limits, states, events, i, id);
    AlwaysExplained(limits, states, events, i - 1, id);
    var s := states[i - 1];
    if s.core.controls[id].lifecycle.Started? {
      n := StartedForAReason(limits, states, events, i - 1, id);
    } else {
      n := i - 1;
    }
  }

  // ---- cancelling ----

  /** Every cancel reason was asked for by one event, while the task had none. */
  lemma {:induction false} ReasonsHaveACause(limits: Limits, states: seq<State>, events: seq<Event>, i: nat, id: nat)
    returns (n: nat)
    requires IsRun(limits, states, events) && i < |states| && id in states[i].core.controls
    requires states[i].core.controls[id].reason.Some?
    ensures n < i && HasPhase(states[n], id) && states[n].core.controls[id].reason == None
    ensures ReasonAsked(states[n], events[n], id) == states[i].core.controls[id].reason
    ensures states[n].core.controls[id].deadline == states[i].core.controls[id].deadline
  {
    StepBack(limits, states, events, i, id);
    if states[i - 1].core.controls[id].reason.Some? {
      n := ReasonsHaveACause(limits, states, events, i - 1, id);
    } else {
      n := i - 1;
    }
  }

  lemma {:induction false} TimePasses(limits: Limits, states: seq<State>, events: seq<Event>, i: nat, j: nat)
    requires IsRun(limits, states, events) && i <= j < |states|
    ensures states[i].now <= states[j].now
    decreases j
  {
    if i < j {
      TimePasses(limits, states, events, i, j - 1);
      TimeSteps(limits, states[j - 1], events[j - 1]);
    }
  }

  lemma TimeSteps(limits: Limits, s: State, e: Event)
    requires Enabled(limits, s, e)
    ensures s.now <= Apply(limits, s, e).now
  {
    if OfThread(e) {
      ThreadsKeepTime(limits, s, e);
    } else if Quiet(e) {
      QuietKeepsTime(limits, s, e);
    } else if e.ManagerPass? {
      PassFrame(limits, s);
    }
  }

  lemma ThreadsKeepTime(limits: Limits, s: State, e: Event)
    requires Enabled(limits, s, e) && OfThread(e)
    ensures Apply(limits, s, e).now == s.now
  {
    match e
    case TaskBegins(_) =>
    case TaskReportsStarted(_) =>
    case TaskResolves(_, _) =>
    case TaskPanics(_) =>
  }

  lemma QuietKeepsTime(limits: Limits, s: State, e: Event)
    requires Enabled(limits, s, e) && Quiet(e)
    ensures s.now <= Apply(limits, s, e).now
  {
    if e.ManagerRecheck? {
      assert Apply(limits, s, e) == ApplyRecheck(limits, s, e.m, e.until);
    }
  }

  /**
    No task is cancelled without cause: for its deadline only once that has passed, for its
    user only on request, for a shutdown only by one.
   */
  lemma NoCancellationWithoutCause(limits: Limits, states: seq<State>, events: seq<Event>, i: nat, id: nat)
    requires IsRun(limits, states, events) && i < |states| && id in states[i].core.controls
    ensures match states[i].core.controls[id].reason
            case None => true
            case Some(User) => exists n :: 0 <= n < i && events[n] == CancelSection(id, User)
            case Some(Deadline) =>
              || (states[i].core.controls[id].deadline.Some? && states[i].core.controls[id].deadline.value <= states[i].now)
              || exists n :: 0 <= n < i && events[n] == CancelSection(id, Deadline)
            case Some(Shutdown) =>
              exists n :: 0 <= n < i && (events[n] == CancelSection(id, Shutdown) || OfClosing(events[n], id))
  {
    if states[i].core.controls[id].reason.Some? {
      var n := ReasonsHaveACause(limits, states, events, i, id);
      TimePasses(limits, states, events, n, i);
      assert events[n] == events[n];
    }
  }

  /** A section or a request of a shutdown call that reaches the task. */
  predicate OfClosing(e: Event, id: nat) {
    e.ShutdownSection? || (e.ShutdownRequests? && e.id == id)
  }

  /** A manager pass cancels for their deadline exactly the waiting and running tasks that are past it. */
  lemma DeadlinesAreEnforced(limits: Limits, states: seq<State>, events: seq<Event>, i: nat, id: nat)
    requires IsRun(limits, states, events) && i < |events| && events[i].ManagerPass? && id in states[i].core.controls
    ensures id in states[i + 1].core.controls
    ensures var c, t, t' := states[i].core, states[i].core.controls[id], states[i + 1].core.controls[id];
            var due := t.deadline.Some? && t.deadline.value <= states[i].now;
            var watched := id in c.queue || id in c.ready || (id in c.active && t.lifecycle in {AcceptedNotStarted, Started});
            && (due && watched ==> t.reason == None && t'.reason == Some(Deadline) && t'.lifecycle == Cancelling)
            && (!(due && watched) ==>
                  t' == if id !in c.active && id in states[i + 1].core.active then t.(lifecycle := AcceptedNotStarted) else t)
  {
    StepOn(limits, states, events, i, id);
    SlotsAreForTheWaiting(limits, states, events, i, id);
  }

  lemma SlotsAreForTheWaiting(limits: Limits, states: seq<State>, events: seq<Event>, i: nat, id: nat)
    requires IsRun(limits, states, events) && i < |events| && HasPhase(states[i], id)
    ensures id !in states[i].core.active && id in states[i + 1].core.active ==> id in states[i].core.queue
  {
    RunKeepsInv(limits, states, events, i);
    SlotsAreForTheUntold(limits, states[i], events[i], id);
  }

  lemma CancelledIsNotWaiting(limits: Limits, states: seq<State>, events: seq<Event>, i: nat, id: nat)
    requires IsRun(limits, states, events) && i < |states| && HasPhase(states[i], id)
    requires states[i].core.controls[id].reason.Some?
    ensures id !in states[i].core.queue && id !in states[i].core.ready
  {
    RunKeepsInv(limits, states, events, i);
    assert TaskAt(states[i].core, states[i].owners, id);
  }

  /** The first section of a shutdown cancels what has been admitted and not started, and leaves running tasks their grace. */
  lemma ShutdownSparesRunning(limits: Limits, states: seq<State>, events: seq<Event>, i: nat, id: nat)
    requires IsRun(limits, states, events) && i < |events| && events[i].ShutdownSection? && id in states[i].core.controls
    ensures id in states[i + 1].core.controls
    ensures var c, t, t' := states[i].core, states[i].core.controls[id], states[i + 1].core.controls[id];
            var admitted := id in c.active && t.lifecycle == AcceptedNotStarted;
            && (admitted ==> t.reason == None && t'.reason == Some(Shutdown) && t'.lifecycle == Cancelling)
            && (!admitted && id !in events[i].late ==> t' == t)
  {
    StepOn(limits, states, events, i, id);
  }

  /** What a caller of `cancel` is told, and what it means. */
  lemma CancelAnswers(limits: Limits, states: seq<State>, events: seq<Event>, i: nat, id: nat, why: CancelReason)
    requires IsRun(limits, states, events) && i < |events| && events[i] == CancelSection(id, why)
    ensures id in states[i].core.controls && id in states[i + 1].core.controls
    ensures var t, t' := states[i].core.controls[id], states[i + 1].core.controls[id];
            match Cancel(states[i].core, id, why).outcome
            case AlreadyTerminal => t.lifecycle in {Terminated, Completed, Failed} && t' == t
            case AlreadyRequested => t.lifecycle !in {Terminated, Completed, Failed} && t.reason.Some? && t' == t
            case Requested =>
              && t.lifecycle !in {Terminated, Completed, Failed} && t.reason == None
              && t' == t.(reason := Some(why), lifecycle := Cancelling)
              && id !in states[i + 1].core.queue && id !in states[i + 1].core.ready
  {
    assert Enabled(limits, states[i], events[i]);
    StepOn(limits, states, events, i, id);
    if states[i + 1].core.controls[id].reason.Some? {
      CancelledIsNotWaiting(limits, states, events, i + 1, id);
    }
  }
}
