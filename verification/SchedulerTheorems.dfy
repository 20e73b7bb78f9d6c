/**
  What the executor promises, over whole runs.
 */
module SchedulerTheorems {
  import opened Wrappers
  import opened Sequences
  import opened Tasks
  import opened Admission
  import opened Scheduling
  import opened Conservation
  import opened Fifo
  import opened Managers
  import opened Wakeups
  import opened ShutdownCounts
  import opened SchedulerInvariant
  import opened TaskSteps

  // ---- what later states can no longer change ----

  /** Decisions about one task that hold for good once taken; `closed` when shutdown has begun. */
  predicate TaskSettles(t: Control, o: Owner, t': Control, o': Owner, closed: bool) {
    && t'.deadline == t.deadline && t'.supervised == t.supervised
    && (t.reason.Some? ==> t'.reason == t.reason)
    && (t.lifecycle.Terminal() ==> t' == t && o'.invoked == o.invoked)
    && (o.result.Some? ==> o'.result == o.result)
    && (o.invoked ==> o'.invoked)
    && (t.reason.Some? && !o.invoked ==> !o'.invoked)
    && (closed && t'.lifecycle.Started? ==> t.lifecycle.Started?)
  }

  ghost predicate TasksSettle(s: State, s': State) {
    forall id :: HasPhase(s, id) ==>
      HasPhase(s', id) &&
      TaskSettles(s.core.controls[id], s.owners[id], s'.core.controls[id], s'.owners[id], !s.core.accepting)
  }

  predicate HistorySettles(s: State, s': State) {
    && s.admitted <= s'.admitted && s.dispatched <= s'.dispatched
    && (!s.core.accepting ==> !s'.core.accepting && s'.admitted == s.admitted)
  }

  ghost predicate Settled(s: State, s': State) {
    TasksSettle(s, s') && HistorySettles(s, s')
  }

  lemma SettledComposes(s: State, s1: State, s2: State)
    requires Settled(s, s1) && Settled(s1, s2)
    ensures Settled(s, s2)
  {
    forall id | HasPhase(s, id)
      ensures HasPhase(s2, id)
      ensures TaskSettles(s.core.controls[id], s.owners[id], s2.core.controls[id], s2.owners[id], !s.core.accepting)
    {
      assert HasPhase(s1, id);
    }
  }

  // ---- one step settles ----

  lemma UnchangedSettles(s: State, s': State)
    requires s'.core.controls == s.core.controls && s'.owners == s.owners && HistorySettles(s, s')
    ensures Settled(s, s')
  {
  }

  lemma OneChangeSettles(s: State, s': State, id: nat)
    requires HasPhase(s, id) && HasPhase(s', id)
    requires s'.core.controls == s.core.controls[id := s'.core.controls[id]]
    requires s'.owners == s.owners[id := s'.owners[id]]
    requires s'.core.accepting == s.core.accepting && s'.admitted == s.admitted && s'.dispatched == s.dispatched
    requires TaskSettles(s.core.controls[id], s.owners[id], s'.core.controls[id], s'.owners[id], !s.core.accepting)
    ensures Settled(s, s')
  {
  }

  lemma BeginSettles(limits: Limits, s: State, id: nat)
    requires Conserved(limits, s) && PhaseIs(s, id, OnThread)
    ensures Settled(s, ApplyBegin(s, id))
  {
    assert TaskAt(s.core, s.owners, id);
    OneChangeSettles(s, ApplyBegin(s, id), id);
  }

  lemma ReportsStartedSettles(limits: Limits, s: State, id: nat)
    requires Conserved(limits, s) && PhaseIs(s, id, Running)
    ensures Settled(s, SetTask(s, id, MarkStarted(s.core.controls[id]), s.owners[id]))
  {
    assert TaskAt(s.core, s.owners, id);
    OneChangeSettles(s, SetTask(s, id, MarkStarted(s.core.controls[id]), s.owners[id]), id);
  }

  lemma ResolveSettles(limits: Limits, s: State, id: nat, result: BackendResult)
    requires Conserved(limits, s) && PhaseIs(s, id, Running)
    ensures Settled(s, ApplyResolve(s, id, result))
  {
    assert TaskAt(s.core, s.owners, id);
    CompletedExactly(s.core.controls[id], result);
    OneChangeSettles(s, ApplyResolve(s, id, result), id);
  }

  lemma MarkTerminalSettles(limits: Limits, s: State, id: nat)
    requires Conserved(limits, s) && HasPhase(s, id) && s.owners[id].phase.Closing?
    ensures Settled(s, ApplyMarkTerminal(s, id))
  {
    assert TaskAt(s.core, s.owners, id);
    OneChangeSettles(s, ApplyMarkTerminal(s, id), id);
  }

  lemma PublishSettles(s: State, id: nat)
    requires HasPhase(s, id) && s.owners[id].phase.Released?
    ensures Settled(s, ApplyPublish(s, id))
  {
    var s' := ApplyPublish(s, id);
    assert s'.core.controls == s.core.controls[id := s.core.controls[id]];
    OneChangeSettles(s, s', id);
  }

  /** Steps that move an owner on without touching its control block, its result or its history. */
  lemma PhaseSettles(s: State, s': State, id: nat)
    requires HasPhase(s, id) && id in s'.owners
    requires s'.core.controls == s.core.controls && s'.owners == s.owners[id := s'.owners[id]]
    requires s'.core.accepting == s.core.accepting && s'.admitted == s.admitted && s'.dispatched == s.dispatched
    requires s'.owners[id].invoked == s.owners[id].invoked && s'.owners[id].result == s.owners[id].result
    ensures Settled(s, s')
  {
  }

  lemma ReleaseSettles(s: State, id: nat)
    requires HasPhase(s, id) && (s.owners[id].phase.Marked? || s.owners[id].phase.Abandoned?)
    ensures Settled(s, ApplyRelease(s, id))
  {
    PhaseSettles(s, ApplyRelease(s, id), id);
  }

  lemma OneTaskSettles(limits: Limits, s: State, e: Event)
    requires Conserved(limits, s) && Enabled(limits, s, e) && OfOneTask(e)
    ensures Settled(s, Apply(limits, s, e))
  {
    if OfThread(e) {
      ThreadSettles(limits, s, e);
    } else {
      OwnerSettles(limits, s, e);
    }
  }

  lemma ThreadSettles(limits: Limits, s: State, e: Event)
    requires Conserved(limits, s) && Enabled(limits, s, e) && OfThread(e)
    ensures Settled(s, Apply(limits, s, e))
  {
    match e
    case TaskBegins(id) => BeginSettles(limits, s, id);
    case TaskReportsStarted(id) => ReportsStartedSettles(limits, s, id);
    case TaskResolves(id, result) => ResolveSettles(limits, s, id, result);
    case TaskPanics(id) => PhaseSettles(s, Apply(limits, s, e), id);
  }

  lemma OwnerSettles(limits: Limits, s: State, e: Event)
    requires Conserved(limits, s) && Enabled(limits, s, e) && OfOneTask(e) && !OfThread(e)
    ensures Settled(s, Apply(limits, s, e))
  {
    match e
    case OwnerMarksTerminal(id) => MarkTerminalSettles(limits, s, id);
    case OwnerReleases(id) => ReleaseSettles(s, id);
    case OwnerNotifies(id) => PhaseSettles(s, Apply(limits, s, e), id);
    case OwnerPublishes(id) => PublishSettles(s, id);
  }

  lemma SubmittedSettles(s: State, s': State, a: nat, direct: bool, control: Control)
    requires Known(s.core) && NewTask(s, s', a, direct, control)
    ensures Settled(s, s')
  {
  }

  lemma SubmitSettles(limits: Limits, s: State, a: nat, deadline: Option<nat>, supervised: bool)
    requires Known(s.core) && s.core.nextId < MAX_ID
    ensures Settled(s, ApplySubmit(limits, s, a, deadline, supervised))
  {
    var s' := ApplySubmit(limits, s, a, deadline, supervised);
    SubmitShape(limits, s, a, deadline, supervised);
    if Refused(s, s') {
      UnchangedSettles(s, s');
    } else if NewTask(s, s', a, true, Control(deadline, supervised, AcceptedNotStarted, None)) {
      SubmittedSettles(s, s', a, true, Control(deadline, supervised, AcceptedNotStarted, None));
    } else {
      SubmittedSettles(s, s', a, false, Control(deadline, supervised, Queued, None));
    }
  }

  /** Marking and closing any set of tasks settles. */
  lemma MarkingSettles(s: State, s': State)
    requires HistorySettles(s, s')
    requires forall id :: HasPhase(s, id) ==>
               && HasPhase(s', id)
               && s'.owners[id].invoked == s.owners[id].invoked && s'.owners[id].result == s.owners[id].result
               && (s'.core.controls[id] == s.core.controls[id] ||
                   exists r :: s'.core.controls[id] == MarkCancelling(s.core.controls[id], r).0)
    ensures Settled(s, s')
  {
  }

  lemma SweepSettles(s: State)
    ensures Settled(s, SweepState(s))
  {
    MarkingSettles(s, SweepState(s));
  }

  lemma PromoteOneSettles(limits: Limits, s: State)
    requires Conserved(limits, s) && s.core.queue != []
    ensures Settled(s, PromoteOneState(s))
  {
    assert TaskAt(s.core, s.owners, s.core.queue[0]);
  }

  lemma {:induction false} PromoteSettles(limits: Limits, s: State)
    requires Conserved(limits, s) && Fair(s)
    ensures Settled(s, PromoteState(limits, s))
    decreases |s.core.queue|
  {
    if CanPromote(limits, s.core) {
      var s1 := PromoteOneState(s);
      BehindIfFair(s);
      PromoteOneKeeps(limits, s);
      PromoteOneKeepsOrder(s);
      PromoteOneSettles(limits, s);
      PromoteSettles(limits, s1);
      SettledComposes(s, s1, PromoteState(limits, s));
    }
  }

  lemma DispatchSettles(s: State)
    ensures Settled(s, DispatchState(s))
  {
  }

  lemma PassSettles(limits: Limits, s: State)
    requires Conserved(limits, s) && Fair(s)
    ensures Settled(s, PassState(limits, s))
  {
    var s1 := SweepState(s);
    var s2 := PromoteState(limits, s1);
    SweepSettles(s);
    SweepKeeps(limits, s);
    SweepKeepsOrder(s);
    PromoteSettles(limits, s1);
    SettledComposes(s, s1, s2);
    DispatchSettles(s2);
    SettledComposes(s, s2, DispatchState(s2));
  }

  lemma CancelSettles(s: State, id: nat, reason: CancelReason)
    requires HasPhase(s, id)
    ensures Settled(s, ApplyCancel(s, id, reason))
  {
    MarkingSettles(s, ApplyCancel(s, id, reason));
  }

  lemma ShutdownSettles(s: State, k: nat, late: set<nat>)
    ensures Settled(s, ApplyShutdown(s, k, late))
  {
    MarkingSettles(s, ApplyShutdown(s, k, late));
  }

  lemma FailPendingSettles(s: State, a: nat)
    ensures Settled(s, ApplyFailPending(s, a))
  {
    MarkingSettles(s, ApplyFailPending(s, a));
  }

  lemma HandoverSettles(s: State, m: nat, ok: bool)
    requires m in s.managers && s.managers[m].SpawningTask?
    ensures Settled(s, ApplyDispatch(s, m, s.managers[m].id, ok))
  {
    MarkingSettles(s, ApplyDispatch(s, m, s.managers[m].id, ok));
  }

  lemma RequestSettles(s: State, k: nat, id: nat)
    requires k in s.shutdowns && s.shutdowns[k].pc.Requesting? && HasPhase(s, id)
    ensures Settled(s, ApplyShutdownRequest(s, k, id))
  {
    CancelSettles(s, id, Shutdown);
    RequestIsCancel(s, k, id);
  }

  lemma SectionSettles(limits: Limits, s: State, e: Event)
    requires Inv(limits, s) && Enabled(limits, s, e) && !OfOneTask(e) && !Quiet(e)
    ensures Settled(s, Apply(limits, s, e))
  {
    match e
    case SubmitSection(a, deadline, supervised) => SubmitSettles(limits, s, a, deadline, supervised);
    case FailPendingSection(a) => FailPendingSettles(s, a);
    case ManagerPass(m) => PassSettles(limits, s);
    case DispatchTask(m, ok) => HandoverSettles(s, m, ok);
    case CancelSection(id, reason) => CancelSettles(s, id, reason);
    case ShutdownSection(k, late) => ShutdownSettles(s, k, late);
    case ShutdownRequests(k, id) => RequestSettles(s, k, id);
  }

  lemma StepSettles(limits: Limits, s: State, e: Event)
    requires Inv(limits, s) && Enabled(limits, s, e)
    ensures Settled(s, Apply(limits, s, e))
  {
    if OfOneTask(e) {
      OneTaskSettles(limits, s, e);
    } else if Quiet(e) {
      QuietChangesNothing(limits, s, e);
      UnchangedSettles(s, Apply(limits, s, e));
    } else {
      SectionSettles(limits, s, e);
    }
  }

  /** Whatever a state has settled stays settled in every later state of the run. */
  lemma {:induction false} RunSettles(limits: Limits, states: seq<State>, events: seq<Event>, i: nat, j: nat)
    requires IsRun(limits, states, events) && i <= j < |states|
    ensures Settled(states[i], states[j])
    decreases j - i
  {
    if i < j {
      RunKeepsInv(limits, states, events, i);
      StepSettles(limits, states[i], events[i]);
      RunSettles(limits, states, events, i + 1, j);
      SettledComposes(states[i], states[i + 1], states[j]);
    }
  }

  // ---- the promises ----

  /** The task is where its one owner's phase says, and nowhere else. */
  predicate OnePlace(s: State, id: nat)
    requires id in s.core.controls
  {
    var c := s.core;
    && id in s.owners
    && (id in c.queue <==> s.owners[id].phase.InQueue?)
    && (id in c.ready <==> s.owners[id].phase.InReady?)
    && (id in c.active <==> s.owners[id].permit.ActivePermit?)
    && (id in c.ready ==> id in c.active) && (id in c.queue ==> id !in c.active)
    && (id in c.queue ==> c.controls[id].lifecycle.Queued? && c.controls[id].reason.None?)
    && (id in c.ready ==> c.controls[id].lifecycle.AcceptedNotStarted? && c.controls[id].reason.None?)
    && (s.owners[id].permit.NoPermit? ==> c.controls[id].lifecycle.Terminal())
  }

  /** Conservation and bounds, in every reachable state: deques and `active` hold accepted tasks only, none twice. */
  lemma EveryTaskHasOnePlace(limits: Limits, states: seq<State>, events: seq<Event>, i: nat)
    requires IsRun(limits, states, events) && i < |states|
    ensures var c := states[i].core;
            && |c.active| <= limits.active && |c.queue| <= limits.queue
            && Increasing(c.queue) && Increasing(c.ready)
            && Elems(c.queue) + Elems(c.ready) + c.active <= c.controls.Keys == states[i].owners.Keys
            && forall id :: id in c.controls ==> OnePlace(states[i], id)
  {
    RunKeepsInv(limits, states, events, i);
    forall id | id in states[i].core.controls
      ensures OnePlace(states[i], id)
    {
      assert TaskAt(states[i].core, states[i].owners, id);
    }
  }

  /** Strict FIFO: admission and dispatch follow submission order, and history only grows. */
  lemma AdmissionIsFifo(limits: Limits, states: seq<State>, events: seq<Event>, i: nat, j: nat)
    requires IsRun(limits, states, events) && i <= j < |states|
    ensures Increasing(states[j].admitted) && Increasing(states[j].dispatched)
    ensures states[i].admitted <= states[j].admitted && states[i].dispatched <= states[j].dispatched
    ensures forall id :: id in states[j].dispatched ==> id in states[j].admitted
    ensures forall id :: id in states[j].core.active ==> id in states[j].admitted
  {
    RunKeepsInv(limits, states, events, j);
    RunSettles(limits, states, events, i, j);
  }

  /** Terminal states are absorbing and a published result is final, by the one owner's hand. */
  lemma OutcomeIsFinal(limits: Limits, states: seq<State>, events: seq<Event>, i: nat, j: nat, id: nat)
    requires IsRun(limits, states, events) && i <= j < |states| && id in states[i].core.controls
    ensures id in states[j].core.controls && id in states[i].owners && id in states[j].owners
    ensures states[i].core.controls[id].lifecycle.Terminal() ==> states[j].core.controls[id] == states[i].core.controls[id]
    ensures states[i].owners[id].result.Some? ==>
              && states[j].owners[id].result == states[i].owners[id].result
              && states[i].core.controls[id].lifecycle.Terminal()
              && id !in states[i].core.active
              && (states[i].owners[id].result.value.Output? <==> states[i].core.controls[id].lifecycle.Completed?)
    ensures !states[i].owners[id].phase.Abandoned? && !states[i].owners[id].phase.Forgotten?
  {
    RunKeepsInv(limits, states, events, i);
    assert TaskAt(states[i].core, states[i].owners, id);
    assert HasPhase(states[i], id);
    RunSettles(limits, states, events, i, j);
  }

  /**
    A cancellation answered `Requested` sticks: its reason is never overwritten, the
    task never completes, and a backend not yet invoked never will be.
   */
  lemma CancellationSticks(limits: Limits, states: seq<State>, events: seq<Event>, i: nat, j: nat, id: nat, reason: CancelReason)
    requires IsRun(limits, states, events) && i < j < |states|
    requires events[i] == CancelSection(id, reason)
    requires id in states[i].core.controls && id in states[i].owners && Cancel(states[i].core, id, reason).outcome.Requested?
    ensures id in states[j].core.controls && id in states[j].owners
    ensures states[j].core.controls[id].reason == Some(reason)
    ensures !states[j].core.controls[id].lifecycle.Completed?
    ensures states[j].core.controls[id].lifecycle.Cancelling? || states[j].core.controls[id].lifecycle.Terminal()
    ensures states[j].owners[id].result.Some? ==> !states[j].owners[id].result.value.Output?
    ensures !states[i].owners[id].invoked ==> !states[j].owners[id].invoked
  {
    var s1 := states[i + 1];
    assert HasPhase(s1, id) && s1.core.controls[id].reason == Some(reason);
    assert s1.owners[id].invoked == states[i].owners[id].invoked;
    RunSettles(limits, states, events, i + 1, j);
    RunKeepsInv(limits, states, events, j);
    assert TaskAt(states[j].core, states[j].owners, id);
  }

  /** Shutdown is final: after its first section no task is admitted and none newly starts. */
  lemma ShutdownIsFinal(limits: Limits, states: seq<State>, events: seq<Event>, i: nat, j: nat)
    requires IsRun(limits, states, events) && i < j < |states| && events[i].ShutdownSection?
    ensures !states[j].core.accepting && states[j].core.queue == [] && states[j].core.ready == []
    ensures states[j].admitted == states[i].admitted
    ensures forall id :: id in states[j].core.controls && states[j].core.controls[id].lifecycle.Started? ==>
              id in states[i + 1].core.controls && states[i + 1].core.controls[id].lifecycle.Started?
  {
    ShutdownCloses(limits, states[i], events[i]);
    ClosedForGood(limits, states, events, i + 1, j);
  }

  lemma ShutdownCloses(limits: Limits, s: State, e: Event)
    requires Enabled(limits, s, e) && e.ShutdownSection?
    ensures !Apply(limits, s, e).core.accepting && Apply(limits, s, e).admitted == s.admitted
  {
  }

  lemma ClosedForGood(limits: Limits, states: seq<State>, events: seq<Event>, i: nat, j: nat)
    requires IsRun(limits, states, events) && i <= j < |states| && !states[i].core.accepting
    ensures !states[j].core.accepting && states[j].core.queue == [] && states[j].core.ready == []
    ensures states[j].admitted == states[i].admitted
    ensures forall id :: id in states[j].core.controls && states[j].core.controls[id].lifecycle.Started? ==>
              id in states[i].core.controls && states[i].core.controls[id].lifecycle.Started?
  {
    RunKeepsInv(limits, states, events, i);
    RunKeepsInv(limits, states, events, j);
    RunSettles(limits, states, events, i, j);
    NoneNewlyStarts(limits, states[i], states[j]);
  }

  lemma NoneNewlyStarts(limits: Limits, s: State, s': State)
    requires Inv(limits, s) && Inv(limits, s') && Settled(s, s') && !s.core.accepting
    ensures !s'.core.accepting && s'.core.queue == [] && s'.core.ready == [] && s'.admitted == s.admitted
    ensures forall id :: id in s'.core.controls && s'.core.controls[id].lifecycle.Started? ==>
              id in s.core.controls && s.core.controls[id].lifecycle.Started?
  {
    forall id | id in s'.core.controls && s'.core.controls[id].lifecycle.Started?
      ensures id in s.core.controls && s.core.controls[id].lifecycle.Started?
    {
      StartedWasAdmitted(limits, s', id);
      assert HasPhase(s, id);
    }
  }

  lemma StartedWasAdmitted(limits: Limits, s: State, id: nat)
    requires Inv(limits, s) && id in s.core.controls && s.core.controls[id].lifecycle.Started?
    ensures id in s.admitted
  {
    assert TaskAt(s.core, s.owners, id);
  }

  /**
    What a report counts: waiting tasks that were never admitted, and admitted tasks whose
    first cancel reason is the shutdown and which therefore never complete.
   */
  predicate CountsItsOwn(s: State, call: ShutdownCall) {
    && call.report == ShutdownReport(|call.queued|, |call.accepted|, |call.requested|)
    && (forall id :: id in call.queued ==> id in s.core.controls && id !in s.admitted && id !in s.core.queue)
    && (forall id :: id in call.accepted + call.requested ==>
          id in s.admitted && ByShutdown(s.core, id) && !s.core.controls[id].lifecycle.Completed?)
  }

  /** The counts of any two shutdown calls are about different tasks, and each call's are about its own sets. */
  lemma ShutdownCountsAreDisjoint(limits: Limits, states: seq<State>, events: seq<Event>, i: nat, k: nat, l: nat)
    requires IsRun(limits, states, events) && i < |states|
    requires k in states[i].shutdowns && l in states[i].shutdowns
    ensures var a := states[i].shutdowns[k]; var b := states[i].shutdowns[l];
            && CountsItsOwn(states[i], a)
            && a.queued !! b.accepted && a.queued !! b.requested && a.accepted !! b.requested
            && (k != l ==> a.queued !! b.queued && a.accepted !! b.accepted && a.requested !! b.requested)
  {
    RunKeepsInv(limits, states, events, i);
    assert CallOk(states[i], states[i].shutdowns[k]) && CallOk(states[i], states[i].shutdowns[l]);
    CallCounts(limits, states[i], k);
  }

  lemma CallCounts(limits: Limits, s: State, k: nat)
    requires Inv(limits, s) && k in s.shutdowns
    ensures CountsItsOwn(s, s.shutdowns[k])
  {
    var call := s.shutdowns[k];
    assert CallOk(s, call);
    forall id | id in call.accepted + call.requested
      ensures id in s.admitted && ByShutdown(s.core, id) && !s.core.controls[id].lifecycle.Completed?
    {
      assert TaskAt(s.core, s.owners, id);
    }
  }

  /** One manager at most, exactly while the flag is up; nothing waits without one or a submitter on its way. */
  lemma NoStrandedWork(limits: Limits, states: seq<State>, events: seq<Event>, i: nat)
    requires IsRun(limits, states, events) && i < |states|
    ensures forall m, n :: m in states[i].managers && n in states[i].managers ==> m == n
    ensures states[i].managerStarted <==> (states[i].managers != map[] || Starting(states[i]))
    ensures states[i].core.queue != [] || states[i].core.ready != [] ==>
              states[i].managerStarted || StillSubmitting(states[i])
  {
    RunKeepsInv(limits, states, events, i);
  }

  /** A task whose deadline is enforced, and that has one. */
  predicate Timed(c: Core, id: nat)
    requires id in c.controls
  {
    c.controls[id].deadline.Some? && Watched(c, id)
  }

  /**
    A sleeping manager that has not been notified misses nothing: when no notification is
    on its way there is nothing to dispatch and no enforced deadline before its wake-up.
   */
  lemma SleepMissesNothing(limits: Limits, states: seq<State>, events: seq<Event>, i: nat, m: nat)
    requires IsRun(limits, states, events) && i < |states|
    requires Dozing(states[i], m) && !Pending(states[i])
    ensures states[i].core.ready == []
    ensures states[i].core.queue != [] ==> |states[i].core.active| == limits.active
    ensures forall id :: id in states[i].core.controls && Timed(states[i].core, id) ==>
              states[i].managers[m].until <= states[i].core.controls[id].deadline.value
  {
    var s := states[i];
    RunKeepsInv(limits, states, events, i);
    assert MaySleep(limits, s, s.managers[m].until);
    forall id | id in s.core.controls && Timed(s.core, id)
      ensures s.managers[m].until <= s.core.controls[id].deadline.value
    {
      assert !Early(s, id, s.managers[m].until);
    }
  }

  // ---- the deadline sweep ----

  /** Nothing left for a pass at `now` to expire. */
  ghost predicate NoneOverdue(c: Core, now: nat) {
    forall id :: id in c.controls && Timed(c, id) ==> now < c.controls[id].deadline.value
  }

  /** A task with a cancel reason has left the states a deadline applies to. */
  ghost predicate ReasonsFit(c: Core) {
    forall id :: id in c.controls && c.controls[id].reason.Some? ==> !c.controls[id].lifecycle.DeadlineApplies()
  }

  lemma SweepClears(c: Core, now: nat)
    requires ReasonsFit(c)
    ensures NoneOverdue(Sweep(c, now), now)
  {
    KeptMembers(c.queue, c.controls, now);
    KeptMembers(c.ready, c.controls, now);
    var c' := Sweep(c, now);
    forall id | id in c'.active && IsDue(c'.controls, now, id)
      ensures !c'.controls[id].lifecycle.DeadlineApplies()
    {
      assert id in Overdue(c, now) <==> c.controls[id].lifecycle.DeadlineApplies() || id in c.queue || id in c.ready;
    }
  }

  lemma {:induction false} PromoteClears(limits: Limits, c: Core, now: nat)
    requires NoneOverdue(c, now)
    ensures NoneOverdue(Promote(limits, c), now)
    decreases |c.queue|
  {
    if CanPromote(limits, c) {
      PromoteOneClears(c, now);
      PromoteClears(limits, PromoteOne(c), now);
    }
  }

  lemma PromoteOneClears(c: Core, now: nat)
    requires NoneOverdue(c, now) && c.queue != []
    ensures NoneOverdue(PromoteOne(c), now)
  {
    var c' := PromoteOne(c);
    assert c.queue[0] in c.queue;
    assert forall id :: IsDue(c'.controls, now, id) <==> IsDue(c.controls, now, id);
    assert forall id :: id in c'.queue ==> id in c.queue;
    assert forall id :: id in c'.ready ==> id in c.ready || id == c.queue[0];
  }

  /** The sweep is complete and exact: a pass expires all that is due and gives a reason to nothing else. */
  lemma PassClears(limits: Limits, c: Core, now: nat)
    requires ReasonsFit(c)
    ensures NoneOverdue(Pass(limits, c, now).0, now)
    ensures forall id :: id in c.controls ==>
              && id in Pass(limits, c, now).0.controls
              && (Pass(limits, c, now).0.controls[id].reason ==
                  if id in Overdue(c, now) then MarkCancelling(c.controls[id], Deadline).0.reason
                  else c.controls[id].reason)
  {
    var c1 := Sweep(c, now);
    var c2 := Promote(limits, c1);
    SweepClears(c, now);
    PromoteClears(limits, c1, now);
    PromoteKeepsReasons(limits, c1);
    if c2.ready != [] {
      assert c2.ready == [c2.ready[0]] + c2.ready[1..];
    }
  }

  lemma {:induction false} PromoteKeepsReasons(limits: Limits, c: Core)
    ensures var c' := Promote(limits, c);
            forall id :: id in c.controls ==> id in c'.controls && c'.controls[id].reason == c.controls[id].reason
    decreases |c.queue|
  {
    if CanPromote(limits, c) {
      PromoteKeepsReasons(limits, PromoteOne(c));
    }
  }

  /** After a manager pass nothing waiting or enforceable is past its deadline, and what expired is being closed. */
  lemma SweepIsComplete(limits: Limits, states: seq<State>, events: seq<Event>, i: nat)
    requires IsRun(limits, states, events) && i < |events| && events[i].ManagerPass?
    ensures NoneOverdue(states[i + 1].core, states[i].now)
    ensures forall id :: id in Swept(states[i]) ==>
              id in states[i + 1].owners && states[i + 1].owners[id].phase == Closing(Terminated, DeadlineFailure)
  {
    var s := states[i];
    RunKeepsInv(limits, states, events, i);
    PassMatches(limits, s);
    ReasonsAlwaysFit(limits, s);
    PassClears(limits, s.core, s.now);
    SweptAreClosed(limits, s);
  }

  lemma ReasonsAlwaysFit(limits: Limits, s: State)
    requires Conserved(limits, s)
    ensures ReasonsFit(s.core)
  {
    forall id | id in s.core.controls && s.core.controls[id].reason.Some?
      ensures !s.core.controls[id].lifecycle.DeadlineApplies()
    {
      assert TaskAt(s.core, s.owners, id);
    }
  }

  lemma {:induction false} PromoteLeavesClosed(limits: Limits, s: State, id: nat)
    requires Conserved(limits, s) && Fair(s) && id in s.owners && s.owners[id].phase.Closing?
    ensures var s' := DispatchState(PromoteState(limits, s)); id in s'.owners && s'.owners[id].phase == s.owners[id].phase
    decreases |s.core.queue|
  {
    assert TaskAt(s.core, s.owners, id);
    if CanPromote(limits, s.core) {
      BehindIfFair(s);
      PromoteOneKeeps(limits, s);
      PromoteOneKeepsOrder(s);
      PromoteLeavesClosed(limits, PromoteOneState(s), id);
    }
  }

  lemma SweptAreClosed(limits: Limits, s: State)
    requires Conserved(limits, s) && Fair(s)
    ensures var s' := PassState(limits, s);
            forall id :: id in Swept(s) ==> id in s'.owners && s'.owners[id].phase == Closing(Terminated, DeadlineFailure)
  {
    SweepKeeps(limits, s);
    SweepKeepsOrder(s);
    var s1 := SweepState(s);
    forall id | id in Swept(s)
      ensures id in PassState(limits, s).owners && PassState(limits, s).owners[id].phase == Closing(Terminated, DeadlineFailure)
    {
      assert id in s1.owners && s1.owners[id].phase == Closing(Terminated, DeadlineFailure);
      PromoteLeavesClosed(limits, s1, id);
    }
  }
}
