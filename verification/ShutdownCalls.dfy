/**
  What one call of `shutdown` does from its first section to its report: whom it counts as
  queued and accepted, whom it asks to stop when the grace is over, and that nobody who was
  running then is left unasked.
 */
module ShutdownCalls {
  import opened Sequences
  import opened Tasks
  import opened Admission
  import opened Scheduling
  import opened Conservation
  import opened ShutdownCounts
  import opened SchedulerInvariant
  import opened SchedulerTheorems
  import opened TaskSteps
  import opened Outcomes

  /** The tasks whose backends run. */
  function Running(s: State): set<nat> {
    set id | id in s.core.active && id in s.core.controls && s.core.controls[id].lifecycle == Started
  }

  /** Cancelled already, or over. */
  predicate Stopping(s: State, id: nat) {
    id in s.core.controls &&
    (s.core.controls[id].reason.Some? || s.core.controls[id].lifecycle in {Terminated, Completed, Failed})
  }

  // ---- one step of a call in its closing loop ----

  predicate CallUnmoved(s: State, s': State, k: nat) {
    k in s.shutdowns && k in s'.shutdowns && s'.shutdowns[k] == s.shutdowns[k]
  }

  predicate OfCall(e: Event, k: nat) {
    match e
    case ShutdownIdle(l) => l == k
    case ShutdownGraceOver(l) => l == k
    case ShutdownCollects(l) => l == k
    case ShutdownRequests(l, _) => l == k
    case ShutdownReturns(l) => l == k
    case _ => false
  }

  lemma OthersLeaveCall(limits: Limits, s: State, e: Event, k: nat)
    requires Enabled(limits, s, e) && k in s.shutdowns && !OfCall(e, k)
    ensures CallUnmoved(s, Apply(limits, s, e), k)
  {
    if OfOneTask(e) {
      OneTaskKeepsReasons(limits, s, e);
    } else if Bookkeeping(e) {
      BookkeepingLeavesShutdowns(limits, s, e);
    } else if Quiet(e) {
      MovesLeaveCall(limits, s, e, k);
    } else if e.ManagerPass? {
      PassLeavesCalls(limits, s, e.m);
    } else {
      SectionsLeaveCall(limits, s, e, k);
    }
  }

  lemma MovesLeaveCall(limits: Limits, s: State, e: Event, k: nat)
    requires Enabled(limits, s, e) && k in s.shutdowns && !OfCall(e, k)
    requires e.ShutdownIdle? || e.ShutdownGraceOver? || e.ShutdownCollects? || e.ShutdownReturns?
    ensures CallUnmoved(s, Apply(limits, s, e), k)
  {
    match e
    case ShutdownIdle(_) =>
    case ShutdownGraceOver(_) =>
    case ShutdownCollects(_) =>
    case ShutdownReturns(_) =>
  }

  lemma SectionsLeaveCall(limits: Limits, s: State, e: Event, k: nat)
    requires Enabled(limits, s, e) && k in s.shutdowns && !OfCall(e, k)
    requires !OfOneTask(e) && !Quiet(e) && !e.ManagerPass?
    ensures CallUnmoved(s, Apply(limits, s, e), k)
  {
    match e
    case SubmitSection(_, _, _) =>
    case FailPendingSection(_) =>
    case DispatchTask(_, _) =>
    case CancelSection(_, _) =>
    case ShutdownSection(_, _) =>
    case ShutdownRequests(_, _) =>
  }

  /** A request is granted to a task nobody has cancelled and that is not over. */
  lemma RequestMoves(s: State, k: nat, id: nat)
    requires k in s.shutdowns && s.shutdowns[k].pc.Requesting? && HasPhase(s, id)
    ensures var call, call' := s.shutdowns[k], ApplyShutdownRequest(s, k, id).shutdowns[k];
            && call'.pc == Requesting(call.pc.todo - {id})
            && call'.requested == call.requested + (if Stopping(s, id) then {} else {id})
  {
  }

  // ---- the closing loop ----

  /** While a call goes through `listed`: whoever is not on its list any more is stopping. */
  predicate Closing(listed: set<nat>, s: State, k: nat) {
    && k in s.shutdowns
    && s.shutdowns[k].requested <= listed
    && (s.shutdowns[k].pc.Requesting? || s.shutdowns[k].pc.Returned?)
    && (forall id :: id in listed ==>
          Stopping(s, id) || (s.shutdowns[k].pc.Requesting? && id in s.shutdowns[k].pc.todo))
    && (s.shutdowns[k].pc.Requesting? ==> s.shutdowns[k].pc.todo <= listed)
  }

  lemma StoppingStays(s: State, s': State, id: nat)
    requires HasPhase(s, id) && Settled(s, s') && Stopping(s, id)
    ensures Stopping(s', id)
  {
  }

  lemma CollectStarts(limits: Limits, s: State, k: nat)
    requires Inv(limits, s) && Enabled(limits, s, ShutdownCollects(k))
    ensures Closing(Running(s), Apply(limits, s, ShutdownCollects(k)), k)
    ensures Apply(limits, s, ShutdownCollects(k)).shutdowns[k].requested == {}
  {
    assert CallOk(s, s.shutdowns[k]);
  }

  ghost predicate KeepsStopping(s: State, s': State) {
    forall id :: Stopping(s, id) ==> Stopping(s', id)
  }

  lemma StoppingGoesOn(limits: Limits, s: State, e: Event)
    requires Inv(limits, s) && Enabled(limits, s, e)
    ensures KeepsStopping(s, Apply(limits, s, e))
  {
    StepSettles(limits, s, e);
    forall id | Stopping(s, id)
      ensures Stopping(Apply(limits, s, e), id)
    {
      KnownHasPhase(limits, s, id);
      StoppingStays(s, Apply(limits, s, e), id);
    }
  }

  lemma UnmovedKeepsClosing(s: State, s': State, listed: set<nat>, k: nat)
    requires Closing(listed, s, k) && CallUnmoved(s, s', k) && KeepsStopping(s, s')
    ensures Closing(listed, s', k)
  {
  }

  lemma RequestKeepsClosing(s: State, k: nat, id: nat, listed: set<nat>)
    requires k in s.shutdowns && s.shutdowns[k].pc.Requesting? && id in s.shutdowns[k].pc.todo && HasPhase(s, id)
    requires Closing(listed, s, k)
    requires KeepsStopping(s, ApplyShutdownRequest(s, k, id)) && Stopping(ApplyShutdownRequest(s, k, id), id)
    ensures Closing(listed, ApplyShutdownRequest(s, k, id), k)
  {
    RequestMoves(s, k, id);
  }

  lemma ReturnKeepsClosing(limits: Limits, s: State, e: Event, listed: set<nat>, k: nat)
    requires Enabled(limits, s, e) && Closing(listed, s, k) && OfCall(e, k) && !e.ShutdownRequests?
    requires KeepsStopping(s, Apply(limits, s, e))
    ensures Closing(listed, Apply(limits, s, e), k)
  {
    assert e.ShutdownReturns?;
  }

  lemma StepKeepsClosing(limits: Limits, s: State, e: Event, listed: set<nat>, k: nat)
    requires Inv(limits, s) && Enabled(limits, s, e) && Closing(listed, s, k)
    ensures Closing(listed, Apply(limits, s, e), k)
  {
    StoppingGoesOn(limits, s, e);
    if !OfCall(e, k) {
      OthersLeaveCall(limits, s, e, k);
      UnmovedKeepsClosing(s, Apply(limits, s, e), listed, k);
    } else if e.ShutdownRequests? {
      RequestStops(limits, s, k, e.id);
      RequestKeepsClosing(s, k, e.id, listed);
    } else {
      ReturnKeepsClosing(limits, s, e, listed, k);
    }
  }

  lemma RequestStops(limits: Limits, s: State, k: nat, id: nat)
    requires Inv(limits, s) && Enabled(limits, s, ShutdownRequests(k, id))
    ensures Stopping(ApplyShutdownRequest(s, k, id), id)
  {
    EveryTaskSteps(limits, s, ShutdownRequests(k, id), id);
  }

  lemma KnownHasPhase(limits: Limits, s: State, id: nat)
    requires Inv(limits, s) && id in s.core.controls
    ensures HasPhase(s, id)
  {
  }

  lemma {:induction false} ClosingGoesOn(
      limits: Limits, states: seq<State>, events: seq<Event>, i: nat, j: nat, k: nat)
    requires IsRun(limits, states, events) && i < j < |states| && events[i] == ShutdownCollects(k)
    ensures Closing(Running(states[i]), states[j], k)
    decreases j
  {
    if i == j - 1 {
      CollectsNobodyYet(limits, states, events, i, k);
    } else {
      ClosingGoesOn(limits, states, events, i, j - 1, k);
      NextKeepsClosing(limits, states, events, j - 1, Running(states[i]), k);
    }
  }

  /** The call asked this task at step `n`, and nobody had before. */
  ghost predicate AskedFirst(states: seq<State>, events: seq<Event>, k: nat, id: nat, n: nat)
    requires n < |events| < |states|
  {
    events[n] == ShutdownRequests(k, id) && !Stopping(states[n], id)
  }

  ghost predicate AskedBetween(states: seq<State>, events: seq<Event>, i: nat, j: nat, k: nat, id: nat)
    requires j <= |events| < |states|
  {
    exists n :: i < n < j && AskedFirst(states, events, k, id, n)
  }

  lemma AskedGrows(states: seq<State>, events: seq<Event>, i: nat, j: nat, k: nat, id: nat)
    requires i < j <= |events| < |states|
    ensures i + 1 < j ==>
              (AskedBetween(states, events, i, j, k, id) <==>
               AskedBetween(states, events, i, j - 1, k, id) || AskedFirst(states, events, k, id, j - 1))
    ensures i + 1 == j ==> !AskedBetween(states, events, i, j, k, id)
  {
    if AskedBetween(states, events, i, j, k, id) {
      var n :| i < n < j && AskedFirst(states, events, k, id, n);
      assert n < j - 1 ==> AskedBetween(states, events, i, j - 1, k, id);
    }
  }

  lemma {:induction false} RequestsAreRecorded(
      limits: Limits, states: seq<State>, events: seq<Event>, i: nat, j: nat, k: nat, id: nat)
    requires IsRun(limits, states, events) && i < j < |states| && events[i] == ShutdownCollects(k)
    ensures k in states[j].shutdowns
    ensures id in states[j].shutdowns[k].requested <==> AskedBetween(states, events, i, j, k, id)
    decreases j
  {
    AskedGrows(states, events, i, j, k, id);
    if i == j - 1 {
      CollectsNobodyYet(limits, states, events, i, k);
    } else {
      RequestsAreRecorded(limits, states, events, i, j - 1, k, id);
      RequestRecords(limits, states[j - 1], events[j - 1], k, id);
    }
  }

  lemma CollectsNobodyYet(limits: Limits, states: seq<State>, events: seq<Event>, i: nat, k: nat)
    requires IsRun(limits, states, events) && i < |events| && events[i] == ShutdownCollects(k)
    ensures k in states[i + 1].shutdowns && states[i + 1].shutdowns[k].requested == {}
    ensures Closing(Running(states[i]), states[i + 1], k)
  {
    RunKeepsInv(limits, states, events, i);
    CollectStarts(limits, states[i], k);
  }

  lemma NextKeepsClosing(limits: Limits, states: seq<State>, events: seq<Event>, i: nat, listed: set<nat>, k: nat)
    requires IsRun(limits, states, events) && i < |events| && Closing(listed, states[i], k)
    ensures Closing(listed, states[i + 1], k)
  {
    RunKeepsInv(limits, states, events, i);
    StepKeepsClosing(limits, states[i], events[i], listed, k);
  }

  lemma RequestRecords(limits: Limits, s: State, e: Event, k: nat, id: nat)
    requires Enabled(limits, s, e) && k in s.shutdowns
    ensures k in Apply(limits, s, e).shutdowns
    ensures id in Apply(limits, s, e).shutdowns[k].requested <==>
              id in s.shutdowns[k].requested || (e == ShutdownRequests(k, id) && !Stopping(s, id))
  {
    if e.ShutdownRequests? && e.k == k {
      RequestMoves(s, k, e.id);
    } else if !OfCall(e, k) {
      OthersLeaveCall(limits, s, e, k);
    }
  }

  /**
    When a call of `shutdown` returns after its grace, every task that was running when the
    grace ended has been cancelled or is over; it asked nobody else, and its report counts
    exactly the tasks it was the first to cancel.
   */
  lemma ShutdownStopsRunningTasks(
      limits: Limits, states: seq<State>, events: seq<Event>, i: nat, j: nat, k: nat)
    requires IsRun(limits, states, events) && i < j < |events|
    requires events[i] == ShutdownCollects(k) && events[j] == ShutdownReturns(k)
    ensures forall id :: id in Running(states[i]) ==> Stopping(states[j], id)
    ensures k in states[j + 1].shutdowns && states[j + 1].shutdowns[k].pc.Returned?
    ensures var call := states[j + 1].shutdowns[k];
            && call.report.activeRequested == |call.requested|
            && call.requested <= Running(states[i])
            && forall id :: id in call.requested <==> AskedBetween(states, events, i, j, k, id)
  {
    ReturnsWithItsCounts(limits, states, events, j, k);
    ClosingGoesOn(limits, states, events, i, j, k);
    forall id
      ensures id in states[j + 1].shutdowns[k].requested <==> AskedBetween(states, events, i, j, k, id)
    {
      RequestsAreRecorded(limits, states, events, i, j, k, id);
    }
  }

  lemma ReturnsWithItsCounts(limits: Limits, states: seq<State>, events: seq<Event>, j: nat, k: nat)
    requires IsRun(limits, states, events) && j < |events| && events[j] == ShutdownReturns(k)
    ensures k in states[j].shutdowns && k in states[j + 1].shutdowns && states[j].shutdowns[k].pc == Requesting({})
    ensures var call := states[j + 1].shutdowns[k];
            && call.pc.Returned? && call.requested == states[j].shutdowns[k].requested
            && call.report.activeRequested == |call.requested|
  {
    assert Enabled(limits, states[j], events[j]);
    RunKeepsInv(limits, states, events, j + 1);
    assert CallOk(states[j + 1], states[j + 1].shutdowns[k]);
  }

  /** A call whose grace was long enough asks nobody and reports so. */
  lemma ShutdownOfIdleExecutor(limits: Limits, states: seq<State>, events: seq<Event>, j: nat, k: nat)
    requires IsRun(limits, states, events) && j < |events| && events[j] == ShutdownIdle(k)
    ensures states[j].core.active == {}
    ensures k in states[j + 1].shutdowns && states[j + 1].shutdowns[k].report.activeRequested == 0
  {
    assert Enabled(limits, states[j], events[j]);
    RunKeepsInv(limits, states, events, j);
    assert CallOk(states[j], states[j].shutdowns[k]);
  }

  // ---- the first section ----

  /** Whom the first section cancels among the admitted: all that have not started, and those that start meanwhile. */
  function NotStarted(s: State, late: set<nat>): set<nat> {
    (set id | id in s.core.active && id in s.core.controls && s.core.controls[id].lifecycle == AcceptedNotStarted) + late
  }

  lemma FirstSectionCounts(s: State, k: nat, late: set<nat>)
    requires Known(s.core) && Placed(s.core, s.owners) && LateStarts(s, late)
    ensures var call := ApplyShutdown(s, k, late).shutdowns[k];
            call.queued == Elems(s.core.queue) && call.accepted == NotStarted(s, late) && call.requested == {}
  {
    forall id
      ensures id in Elems(s.core.ready) + Met(s.core, late) <==> id in NotStarted(s, late)
    {
      AcceptedAreNotStarted(s, late, id);
    }
  }

  lemma AcceptedAreNotStarted(s: State, late: set<nat>, id: nat)
    requires Known(s.core) && Placed(s.core, s.owners) && LateStarts(s, late)
    ensures id in Elems(s.core.ready) + Met(s.core, late) <==> id in NotStarted(s, late)
  {
    if id in s.core.controls {
      assert TaskAt(s.core, s.owners, id);
    }
  }

  /** The report of a call counts the tasks its first section found queued, and those it found admitted and not started. */
  lemma FirstSectionIsReported(limits: Limits, states: seq<State>, events: seq<Event>, i: nat, j: nat, k: nat)
    requires IsRun(limits, states, events) && i < j < |states|
    requires events[i].ShutdownSection? && events[i].k == k
    ensures k in states[j].shutdowns
    ensures var call := states[j].shutdowns[k];
            && call.queued == Elems(states[i].core.queue) && call.accepted == NotStarted(states[i], events[i].late)
            && call.report.queuedCancelled == |states[i].core.queue|
            && call.report.acceptedCancelled == |NotStarted(states[i], events[i].late)|
            && (call.pc.Waiting? ==> call.report.activeRequested == 0)
  {
    CallBegins(limits, states, events, i);
    CallsGoOn(limits, states, events, i + 1, j);
    CallIsKept(limits, states, events, j, k);
  }

  lemma CallBegins(limits: Limits, states: seq<State>, events: seq<Event>, i: nat)
    requires IsRun(limits, states, events) && i < |events| && events[i].ShutdownSection?
    ensures events[i].k in states[i + 1].shutdowns
    ensures var call := states[i + 1].shutdowns[events[i].k];
            call.queued == Elems(states[i].core.queue) && call.accepted == NotStarted(states[i], events[i].late)
    ensures |Elems(states[i].core.queue)| == |states[i].core.queue|
  {
    RunKeepsInv(limits, states, events, i);
    assert Enabled(limits, states[i], events[i]);
    FirstSectionCounts(states[i], events[i].k, events[i].late);
    ElemsCount(states[i].core.queue);
  }

  lemma CallIsKept(limits: Limits, states: seq<State>, events: seq<Event>, j: nat, k: nat)
    requires IsRun(limits, states, events) && j < |states| && k in states[j].shutdowns
    ensures CallOk(states[j], states[j].shutdowns[k])
  {
    RunKeepsInv(limits, states, events, j);
  }

  lemma {:induction false} CallsGoOn(limits: Limits, states: seq<State>, events: seq<Event>, i: nat, j: nat)
    requires IsRun(limits, states, events) && i <= j < |states|
    ensures CallsStay(states[i], states[j])
    decreases j
  {
    if i < j {
      CallsGoOn(limits, states, events, i, j - 1);
      StepKeepsCalls(limits, states[j - 1], events[j - 1]);
    }
  }
}
