/**
  Conservation: every accepted task has one owner in one place, its control block fits
  that place, and the permits are exactly the active slots.
 */
module Conservation {
  import opened Wrappers
  import opened Sequences
  import opened Tasks
  import opened Admission
  import opened Scheduling

  /** What the phase of a task's owner says about its permit, its control block and its result. */
  predicate PhaseFits(t: Control, o: Owner) {
    match o.phase
    case InQueue => o.permit.QueuePermit? && t.lifecycle.Queued? && t.reason.None? && !o.invoked
    case InReady => o.permit.ActivePermit? && t.lifecycle.AcceptedNotStarted? && t.reason.None? && !o.invoked
    case Dispatching => o.permit.ActivePermit? && (t.lifecycle.AcceptedNotStarted? || t.lifecycle.Cancelling?) && !o.invoked
    case OnThread => o.permit.ActivePermit? && (t.lifecycle.AcceptedNotStarted? || t.lifecycle.Cancelling?) && !o.invoked
    case Running =>
      && o.permit.ActivePermit? && o.invoked
      && (t.lifecycle.AcceptedNotStarted? || t.lifecycle.Started? || t.lifecycle.Cancelling?)
    case Closing(target, outcome) =>
      && !o.permit.NoPermit? && !t.lifecycle.Terminal()
      && target.Terminal() && !target.Completed? && !outcome.Output?
      && (t.lifecycle.DeadlineApplies() ==> o.permit.ActivePermit?)
    case Marked(outcome) => !o.permit.NoPermit? && t.lifecycle.Terminal() && (t.lifecycle.Completed? <==> outcome.Output?)
    case Waking(outcome) => o.permit.NoPermit? && t.lifecycle.Terminal() && (t.lifecycle.Completed? <==> outcome.Output?)
    case Released(outcome) => o.permit.NoPermit? && t.lifecycle.Terminal() && (t.lifecycle.Completed? <==> outcome.Output?)
    case Done =>
      && o.permit.NoPermit? && t.lifecycle.Terminal() && o.result.Some?
      && (t.lifecycle.Completed? <==> o.result.value.Output?)
    case Abandoned => false
    case Forgotten => false
  }

  predicate TaskOk(t: Control, o: Owner, queued: bool, ready: bool, active: bool) {
    && PhaseFits(t, o)
    && (queued <==> o.phase.InQueue?)
    && (ready <==> o.phase.InReady?)
    && (active <==> o.permit.ActivePermit?)
    && (o.result.Some? <==> o.phase.Done?)
    && (t.lifecycle.Cancelling? ==> t.reason.Some?)
    && (t.reason.Some? ==> t.lifecycle.Cancelling? || t.lifecycle.Terminal())
    && (t.lifecycle.Completed? ==> t.reason.None? && o.invoked)
    && (t.lifecycle.Started? ==> o.invoked)
  }

  predicate TaskAt(c: Core, owners: map<nat, Owner>, id: nat)
    requires id in c.controls && id in owners
  {
    TaskOk(c.controls[id], owners[id], id in c.queue, id in c.ready, id in c.active)
  }

  predicate Placed(c: Core, owners: map<nat, Owner>) {
    && c.controls.Keys == owners.Keys
    && (forall id :: id in c.controls ==> TaskAt(c, owners, id))
  }

  predicate Known(c: Core) {
    && (forall id :: id in c.queue ==> id in c.controls)
    && (forall id :: id in c.ready ==> id in c.controls)
    && (forall id :: id in c.active ==> id in c.controls)
    && (forall id :: id in c.controls ==> id < c.nextId)
  }

  predicate Ordered(c: Core) {
    Increasing(c.queue) && Increasing(c.ready)
  }

  predicate Bounded(limits: Limits, c: Core) {
    |c.active| <= limits.active && |c.queue| <= limits.queue
  }

  /** Once shut down, nothing waits and no admitted task can still start. */
  predicate Closed(c: Core) {
    !c.accepting ==>
      && c.queue == [] && c.ready == []
      && (forall id :: id in c.active && id in c.controls ==> !c.controls[id].lifecycle.AcceptedNotStarted?)
  }

  predicate CoreConserved(limits: Limits, c: Core, owners: map<nat, Owner>) {
    Known(c) && Ordered(c) && Bounded(limits, c) && Closed(c) && Placed(c, owners)
  }

  predicate Conserved(limits: Limits, s: State) {
    CoreConserved(limits, s.core, s.owners)
  }

  // ---- one task changes, the deques do not ----

  /** A change of one control block and owner keeps every other task where it was. */
  lemma TaskChangeKeeps(limits: Limits, s: State, s': State, id: nat)
    requires Conserved(limits, s) && id in s.core.controls
    requires id in s'.core.controls && id in s'.owners
    requires s'.core == s.core.(controls := s.core.controls[id := s'.core.controls[id]])
    requires s'.owners == s.owners[id := s'.owners[id]]
    requires TaskAt(s'.core, s'.owners, id)
    requires s'.core.controls[id].lifecycle.AcceptedNotStarted? ==> s.core.controls[id].lifecycle.AcceptedNotStarted?
    ensures Conserved(limits, s')
  {
    forall x | x in s'.core.controls
      ensures TaskAt(s'.core, s'.owners, x)
    {
      assert x != id ==> TaskAt(s.core, s.owners, x);
    }
  }

  lemma BeginKeeps(limits: Limits, s: State, id: nat)
    requires Conserved(limits, s) && PhaseIs(s, id, OnThread)
    ensures Conserved(limits, ApplyBegin(s, id))
  {
    assert TaskAt(s.core, s.owners, id);
    TaskChangeKeeps(limits, s, ApplyBegin(s, id), id);
  }

  lemma ReportsStartedKeeps(limits: Limits, s: State, id: nat)
    requires Conserved(limits, s) && PhaseIs(s, id, Running)
    ensures Conserved(limits, SetTask(s, id, MarkStarted(s.core.controls[id]), s.owners[id]))
  {
    assert TaskAt(s.core, s.owners, id);
    TaskChangeKeeps(limits, s, SetTask(s, id, MarkStarted(s.core.controls[id]), s.owners[id]), id);
  }

  lemma ResolveKeeps(limits: Limits, s: State, id: nat, result: BackendResult)
    requires Conserved(limits, s) && PhaseIs(s, id, Running)
    ensures Conserved(limits, ApplyResolve(s, id, result))
  {
    assert TaskAt(s.core, s.owners, id);
    CompletedExactly(s.core.controls[id], result);
    TaskChangeKeeps(limits, s, ApplyResolve(s, id, result), id);
  }

  lemma PanicKeeps(limits: Limits, s: State, id: nat)
    requires Conserved(limits, s) && (PhaseIs(s, id, OnThread) || PhaseIs(s, id, Running))
    ensures Conserved(limits, s.(owners := SetPhase(s.owners, id, Closing(Failed, InternalFailure))))
  {
    assert TaskAt(s.core, s.owners, id);
    var s' := s.(owners := SetPhase(s.owners, id, Closing(Failed, InternalFailure)));
    assert s'.core.controls == s.core.controls[id := s.core.controls[id]];
    TaskChangeKeeps(limits, s, s', id);
  }

  lemma MarkTerminalKeeps(limits: Limits, s: State, id: nat)
    requires Conserved(limits, s) && HasPhase(s, id) && s.owners[id].phase.Closing?
    ensures Conserved(limits, ApplyMarkTerminal(s, id))
  {
    assert TaskAt(s.core, s.owners, id);
    TaskChangeKeeps(limits, s, ApplyMarkTerminal(s, id), id);
  }

  lemma NotifiesKeeps(limits: Limits, s: State, id: nat)
    requires Conserved(limits, s) && HasPhase(s, id) && s.owners[id].phase.Waking?
    ensures Conserved(limits, s.(owners := SetPhase(s.owners, id, Released(s.owners[id].phase.outcome))))
  {
    assert TaskAt(s.core, s.owners, id);
    var s' := s.(owners := SetPhase(s.owners, id, Released(s.owners[id].phase.outcome)));
    assert s'.core.controls == s.core.controls[id := s.core.controls[id]];
    TaskChangeKeeps(limits, s, s', id);
  }

  lemma PublishKeeps(limits: Limits, s: State, id: nat)
    requires Conserved(limits, s) && HasPhase(s, id) && s.owners[id].phase.Released?
    ensures Conserved(limits, ApplyPublish(s, id))
  {
    assert TaskAt(s.core, s.owners, id);
    var s' := ApplyPublish(s, id);
    assert s'.core.controls == s.core.controls[id := s.core.controls[id]];
    TaskChangeKeeps(limits, s, s', id);
  }

  lemma ReleaseKeeps(limits: Limits, s: State, id: nat)
    requires Conserved(limits, s) && HasPhase(s, id) && (s.owners[id].phase.Marked? || s.owners[id].phase.Abandoned?)
    ensures Conserved(limits, ApplyRelease(s, id))
  {
    var s' := ApplyRelease(s, id);
    assert TaskAt(s.core, s.owners, id);
    forall x | x in s'.core.controls
      ensures TaskAt(s'.core, s'.owners, x)
    {
      assert TaskAt(s.core, s.owners, x);
    }
    assert s'.core.active <= s.core.active;
    Subset(s'.core.active, s.core.active);
  }

  lemma {:induction false} Subset(a: set<nat>, b: set<nat>)
    requires a <= b
    ensures |a| <= |b|
  {
    assert b == a + (b - a);
  }

  // ---- submission ----

  /** What a new task looks like where `submit` puts it. */
  lemma NewTaskKeeps(limits: Limits, s: State, s': State, id: nat)
    requires Conserved(limits, s) && id == s.core.nextId
    requires s'.core.nextId > id && s'.core.accepting
    requires id in s'.core.controls && s'.core.controls == s.core.controls[id := s'.core.controls[id]]
    requires id in s'.owners && s'.owners == s.owners[id := s'.owners[id]]
    requires s'.core.queue == s.core.queue || s'.core.queue == s.core.queue + [id]
    requires s'.core.ready == s.core.ready || s'.core.ready == s.core.ready + [id]
    requires s'.core.active == s.core.active || s'.core.active == s.core.active + {id}
    requires Bounded(limits, s'.core)
    requires TaskAt(s'.core, s'.owners, id)
    ensures Conserved(limits, s')
  {
    IncreasingAppend(s.core.queue, id);
    IncreasingAppend(s.core.ready, id);
    forall x | x in s'.core.controls
      ensures TaskAt(s'.core, s'.owners, x)
    {
      if x != id {
        assert TaskAt(s.core, s.owners, x);
        assert x in s'.core.queue <==> x in s.core.queue;
        assert x in s'.core.ready <==> x in s.core.ready;
      }
    }
  }

  lemma SubmittedKeeps(limits: Limits, s: State, s': State, a: nat, direct: bool, control: Control)
    requires Conserved(limits, s) && NewTask(s, s', a, direct, control)
    requires if direct then SlotFree(limits, s.core) else |s.core.queue| < limits.queue
    ensures Conserved(limits, s')
  {
    var id := s.core.nextId;
    assert id !in s.core.active && id !in s.core.queue && id !in s.core.ready;
    assert TaskAt(s'.core, s'.owners, id);
    NewTaskKeeps(limits, s, s', id);
  }

  lemma RefusedKeeps(limits: Limits, s: State, s': State)
    requires Conserved(limits, s) && Refused(s, s')
    ensures Conserved(limits, s')
  {
    forall x | x in s'.core.controls
      ensures TaskAt(s'.core, s'.owners, x)
    {
      assert TaskAt(s.core, s.owners, x);
    }
  }

  // ---- owners taken out of the deques ----

  lemma ClosedTaskOk(t: Control, o: Owner, q: bool, r: bool, a: bool, t': Control, o': Owner, target: Lifecycle, outcome: Outcome, reason: CancelReason)
    requires TaskOk(t, o, q, r, a)
    requires target.Terminal() && !target.Completed? && !outcome.Output?
    requires o' == if q || r then o.(phase := Closing(target, outcome)) else o
    requires t' == t || t' == MarkCancelling(t, reason).0
    ensures TaskOk(t', o', false, false, a)
  {
  }

  /** Emptying both deques and closing what they held keeps every task placed. */
  lemma DrainKeeps(limits: Limits, s: State, s': State, target: Lifecycle, outcome: Outcome)
    requires Conserved(limits, s)
    requires target.Terminal() && !target.Completed? && !outcome.Output?
    requires s'.core.queue == [] && s'.core.ready == []
    requires s'.core.active == s.core.active && s'.core.nextId == s.core.nextId
    requires s'.core.controls.Keys == s.core.controls.Keys
    requires s'.owners == CloseAll(s.owners, Elems(s.core.queue) + Elems(s.core.ready), target, outcome)
    requires forall x :: x in s.core.controls ==>
               s'.core.controls[x] == s.core.controls[x] ||
               s'.core.controls[x] == MarkCancelling(s.core.controls[x], Shutdown).0
    requires Closed(s'.core)
    ensures Conserved(limits, s')
  {
    DrainKeepsPlaced(s, s', target, outcome);
  }

  lemma DrainKeepsPlaced(s: State, s': State, target: Lifecycle, outcome: Outcome)
    requires Placed(s.core, s.owners)
    requires target.Terminal() && !target.Completed? && !outcome.Output?
    requires s'.core.queue == [] && s'.core.ready == [] && s'.core.active == s.core.active
    requires s'.core.controls.Keys == s.core.controls.Keys
    requires s'.owners == CloseAll(s.owners, Elems(s.core.queue) + Elems(s.core.ready), target, outcome)
    requires forall x :: x in s.core.controls ==>
               s'.core.controls[x] == s.core.controls[x] ||
               s'.core.controls[x] == MarkCancelling(s.core.controls[x], Shutdown).0
    ensures Placed(s'.core, s'.owners)
  {
    forall x | x in s'.core.controls
      ensures TaskAt(s'.core, s'.owners, x)
    {
      ClosedTaskOk(s.core.controls[x], s.owners[x], x in s.core.queue, x in s.core.ready, x in s.core.active,
                   s'.core.controls[x], s'.owners[x], target, outcome, Shutdown);
    }
  }

  lemma FailPendingKeeps(limits: Limits, s: State, a: nat)
    requires Conserved(limits, s)
    ensures Conserved(limits, ApplyFailPending(s, a))
  {
    DrainKeeps(limits, s, ApplyFailPending(s, a), Failed, InternalFailure);
  }

  lemma ShutdownKeeps(limits: Limits, s: State, k: nat, late: set<nat>)
    requires Conserved(limits, s)
    ensures Conserved(limits, ApplyShutdown(s, k, late))
    ensures forall id :: id in s.core.active ==>
              !ApplyShutdown(s, k, late).core.controls[id].lifecycle.AcceptedNotStarted?
  {
    var s' := ApplyShutdown(s, k, late);
    forall id | id in s.core.active
      ensures !s'.core.controls[id].lifecycle.AcceptedNotStarted?
    {
      assert TaskAt(s.core, s.owners, id);
      if s.core.controls[id].lifecycle.AcceptedNotStarted? {
        assert id in Elems(s.core.ready) + Unstarted(s.core) + late;
      }
    }
    DrainKeeps(limits, s, s', Terminated, CancelledFailure);
  }

  lemma CancelledTaskOk(t: Control, o: Owner, q: bool, r: bool, a: bool, reason: CancelReason)
    requires TaskOk(t, o, q, r, a)
    ensures TaskOk(MarkCancelling(t, reason).0,
                   if q || r then o.(phase := Closing(Terminated, ClosingOutcome(Some(reason)))) else o,
                   false, false, a)
    ensures q || r ==> !t.lifecycle.Terminal() && !(q && r)
  {
  }

  lemma CancelKeeps(limits: Limits, s: State, id: nat, reason: CancelReason)
    requires Conserved(limits, s) && HasPhase(s, id)
    ensures Conserved(limits, ApplyCancel(s, id, reason))
  {
    assert TaskAt(s.core, s.owners, id);
    if !s.core.controls[id].lifecycle.Terminal() {
      CancelledTaskOk(s.core.controls[id], s.owners[id], id in s.core.queue, id in s.core.ready, id in s.core.active, reason);
      CancelShape(s, id, reason);
      TakenOutKeeps(limits, s, ApplyCancel(s, id, reason), id);
    }
  }

  lemma CancelShape(s: State, id: nat, reason: CancelReason)
    requires HasPhase(s, id) && !s.core.controls[id].lifecycle.Terminal() && !(id in s.core.queue && id in s.core.ready)
    ensures var s' := ApplyCancel(s, id, reason);
            && s'.core == s.core.(
                 queue := Without(s.core.queue, id), ready := Without(s.core.ready, id),
                 controls := s.core.controls[id := MarkCancelling(s.core.controls[id], reason).0])
            && s'.owners == s.owners[id :=
                 if id in s.core.queue || id in s.core.ready
                 then s.owners[id].(phase := Closing(Terminated, ClosingOutcome(Some(reason)))) else s.owners[id]]
  {
  }

  /** One task leaves whichever deque it was in. */
  lemma TakenOutKeeps(limits: Limits, s: State, s': State, id: nat)
    requires Conserved(limits, s) && HasPhase(s, id) && id in s'.core.controls && id in s'.owners
    requires s'.core == s.core.(
               queue := Without(s.core.queue, id), ready := Without(s.core.ready, id),
               controls := s.core.controls[id := s'.core.controls[id]])
    requires s'.owners == s.owners[id := s'.owners[id]]
    requires TaskOk(s'.core.controls[id], s'.owners[id], false, false, id in s.core.active)
    requires s'.core.controls[id].lifecycle.AcceptedNotStarted? ==> s.core.controls[id].lifecycle.AcceptedNotStarted?
    ensures Conserved(limits, s')
  {
    WithoutKeeps(s.core.queue, id);
    WithoutKeeps(s.core.ready, id);
    TakenOutPlaced(s, s', id);
  }

  lemma TakenOutPlaced(s: State, s': State, id: nat)
    requires Placed(s.core, s.owners) && HasPhase(s, id) && id in s'.core.controls && id in s'.owners
    requires s'.core.controls == s.core.controls[id := s'.core.controls[id]]
    requires s'.owners == s.owners[id := s'.owners[id]] && s'.core.active == s.core.active
    requires forall x :: x in s'.core.queue <==> x in s.core.queue && x != id
    requires forall x :: x in s'.core.ready <==> x in s.core.ready && x != id
    requires TaskOk(s'.core.controls[id], s'.owners[id], false, false, id in s.core.active)
    ensures Placed(s'.core, s'.owners)
  {
    OthersStayPlaced(s, s', id);
  }

  lemma OthersStayPlaced(s: State, s': State, id: nat)
    requires Placed(s.core, s.owners) && s'.core.controls.Keys == s.core.controls.Keys == s'.owners.Keys
    requires forall x :: x in s.core.controls && x != id ==>
               s'.core.controls[x] == s.core.controls[x] && s'.owners[x] == s.owners[x]
    requires forall x :: x != id ==>
               && (x in s'.core.queue <==> x in s.core.queue) && (x in s'.core.ready <==> x in s.core.ready)
               && (x in s'.core.active <==> x in s.core.active)
    ensures forall x :: x in s'.core.controls && x != id ==> TaskAt(s'.core, s'.owners, x)
  {
    forall x | x in s'.core.controls && x != id
      ensures TaskAt(s'.core, s'.owners, x)
    {
      assert TaskAt(s.core, s.owners, x);
    }
  }

  // ---- the manager's pass ----

  lemma SweptTaskOk(t: Control, o: Owner, q: bool, r: bool, a: bool, due: bool)
    requires TaskOk(t, o, q, r, a)
    ensures TaskOk(if due && (q || r || (a && t.lifecycle.DeadlineApplies())) then MarkCancelling(t, Deadline).0 else t,
                   if due && (q || r) then o.(phase := Closing(Terminated, DeadlineFailure)) else o,
                   q && !due, r && !due, a)
  {
  }

  lemma SweepKeeps(limits: Limits, s: State)
    requires Conserved(limits, s)
    ensures Conserved(limits, SweepState(s))
  {
    var s' := SweepState(s);
    KeptMembers(s.core.queue, s.core.controls, s.now);
    KeptMembers(s.core.ready, s.core.controls, s.now);
    KeptIncreasing(s.core.queue, s.core.controls, s.now);
    KeptIncreasing(s.core.ready, s.core.controls, s.now);
    forall x | x in s'.core.controls
      ensures TaskAt(s'.core, s'.owners, x)
    {
      SweptTaskOk(s.core.controls[x], s.owners[x], x in s.core.queue, x in s.core.ready, x in s.core.active,
                  IsDue(s.core.controls, s.now, x));
    }
  }

  /** The head of the queue comes after everything ready: preserved order needs only this. */
  predicate QueueBehind(c: Core) {
    c.queue != [] ==> forall y :: y in c.ready ==> y < c.queue[0]
  }

  lemma PromoteOneKeeps(limits: Limits, s: State)
    requires Conserved(limits, s) && QueueBehind(s.core) && CanPromote(limits, s.core)
    ensures Conserved(limits, PromoteOneState(s)) && QueueBehind(PromoteOneState(s).core)
  {
    var s' := PromoteOneState(s);
    var id := s.core.queue[0];
    IncreasingTail(s.core.queue);
    IncreasingAppend(s.core.ready, id);
    assert TaskAt(s.core, s.owners, id);
    if s'.core.queue != [] {
      assert s'.core.queue[0] in s.core.queue[1..];
    }
    forall x | x in s'.core.controls
      ensures TaskAt(s'.core, s'.owners, x)
    {
      assert TaskAt(s.core, s.owners, x);
    }
  }

  lemma {:induction false} PromoteKeeps(limits: Limits, s: State)
    requires Conserved(limits, s) && QueueBehind(s.core)
    ensures Conserved(limits, PromoteState(limits, s))
    decreases |s.core.queue|
  {
    if CanPromote(limits, s.core) {
      PromoteOneKeeps(limits, s);
      PromoteKeeps(limits, PromoteOneState(s));
    }
  }

  lemma DispatchKeeps(limits: Limits, s: State)
    requires Conserved(limits, s)
    ensures Conserved(limits, DispatchState(s))
  {
    var s' := DispatchState(s);
    if s.core.ready != [] {
      var id := s.core.ready[0];
      IncreasingTail(s.core.ready);
      assert TaskAt(s.core, s.owners, id);
      forall x | x in s'.core.controls
        ensures TaskAt(s'.core, s'.owners, x)
      {
        assert TaskAt(s.core, s.owners, x);
      }
    }
  }

  lemma DispatchTaskKeeps(limits: Limits, s: State, m: nat, id: nat, ok: bool)
    requires Conserved(limits, s) && PhaseIs(s, id, Dispatching)
    ensures Conserved(limits, ApplyDispatch(s, m, id, ok))
  {
    assert TaskAt(s.core, s.owners, id);
    var s' := ApplyDispatch(s, m, id, ok);
    assert s'.core.controls == s.core.controls[id := s.core.controls[id]];
    TaskChangeKeeps(limits, s, s', id);
  }

  /** The state-level pass performs exactly the scheduler-level pass on the core. */
  lemma {:induction false} PromoteMatches(limits: Limits, s: State)
    ensures PromoteState(limits, s).core == Promote(limits, s.core)
    decreases |s.core.queue|
  {
    if CanPromote(limits, s.core) {
      PromoteMatches(limits, PromoteOneState(s));
    }
  }

  lemma PassMatches(limits: Limits, s: State)
    ensures PassState(limits, s).core == Pass(limits, s.core, s.now).0
  {
    PromoteMatches(limits, SweepState(s));
  }

  // ---- classes of events ----

  /** Events that touch neither the scheduler's data nor any task. */
  predicate Quiet(e: Event) {
    e.Tick? || e.SubmitNotify? || e.EnsureManager? || e.SpawnManager? || e.SpawnManagerFails? ||
    e.ManagerDrained? || e.ManagerExit? || e.ManagerRecheck? || e.ManagerWake? || e.NotifyAll? ||
    e.ShutdownIdle? || e.ShutdownGraceOver? || e.ShutdownCollects? || e.ShutdownReturns?
  }

  /** Events of one task under its own lock, its permit or its result cell. */
  predicate OfOneTask(e: Event) {
    e.TaskBegins? || e.TaskReportsStarted? || e.TaskResolves? || e.TaskPanics? ||
    e.OwnerMarksTerminal? || e.OwnerReleases? || e.OwnerNotifies? || e.OwnerPublishes?
  }

  /** The first four are the task thread's, the others its owner's on the way out. */
  predicate OfThread(e: Event) {
    e.TaskBegins? || e.TaskReportsStarted? || e.TaskResolves? || e.TaskPanics?
  }

  lemma QuietChangesNothing(limits: Limits, s: State, e: Event)
    requires Enabled(limits, s, e) && Quiet(e)
    ensures var s' := Apply(limits, s, e);
            && s'.core == s.core && s'.owners == s.owners
            && s'.admitted == s.admitted && s'.dispatched == s.dispatched
  {
    if e.ManagerRecheck? {
      assert Apply(limits, s, e) == ApplyRecheck(limits, s, e.m, e.until);
    } else if e.SubmitNotify? {
      assert Apply(limits, s, e) == ApplyNotifyOne(s, e.a, e.woken);
    }
  }

  lemma OneTaskKeeps(limits: Limits, s: State, e: Event)
    requires Conserved(limits, s) && Enabled(limits, s, e) && OfOneTask(e)
    ensures Conserved(limits, Apply(limits, s, e))
  {
    if OfThread(e) {
      ThreadKeeps(limits, s, e);
    } else {
      OwnerKeeps(limits, s, e);
    }
  }

  lemma ThreadKeeps(limits: Limits, s: State, e: Event)
    requires Conserved(limits, s) && Enabled(limits, s, e) && OfThread(e)
    ensures Conserved(limits, Apply(limits, s, e))
  {
    match e
    case TaskBegins(id) => BeginKeeps(limits, s, id);
    case TaskReportsStarted(id) => ReportsStartedKeeps(limits, s, id);
    case TaskResolves(id, result) => ResolveKeeps(limits, s, id, result);
    case TaskPanics(id) => PanicKeeps(limits, s, id);
  }

  lemma OwnerKeeps(limits: Limits, s: State, e: Event)
    requires Conserved(limits, s) && Enabled(limits, s, e) && OfOneTask(e) && !OfThread(e)
    ensures Conserved(limits, Apply(limits, s, e))
  {
    match e
    case OwnerMarksTerminal(id) => MarkTerminalKeeps(limits, s, id);
    case OwnerReleases(id) => ReleaseKeeps(limits, s, id);
    case OwnerNotifies(id) => NotifiesKeeps(limits, s, id);
    case OwnerPublishes(id) => PublishKeeps(limits, s, id);
  }

  /** What an event of one task leaves alone. */
  lemma OneTaskFrame(limits: Limits, s: State, e: Event)
    requires Enabled(limits, s, e) && OfOneTask(e)
    ensures var s' := Apply(limits, s, e);
            && s'.core.(controls := s.core.controls, active := s.core.active) == s.core
            && s'.core.controls.Keys == s.core.controls.Keys
            && s'.admitted == s.admitted && s'.dispatched == s.dispatched
  {
    if OfThread(e) {
      ThreadFrame(limits, s, e);
    } else {
      OwnerFrame(limits, s, e);
    }
  }

  lemma ThreadFrame(limits: Limits, s: State, e: Event)
    requires Enabled(limits, s, e) && OfOneTask(e) && OfThread(e)
    ensures var s' := Apply(limits, s, e);
            && s'.core.(controls := s.core.controls) == s.core
            && s'.core.controls.Keys == s.core.controls.Keys
            && s'.admitted == s.admitted && s'.dispatched == s.dispatched
  {
    match e
    case TaskBegins(_) =>
    case TaskReportsStarted(_) =>
    case TaskResolves(_, _) =>
    case TaskPanics(_) =>
  }

  lemma OwnerFrame(limits: Limits, s: State, e: Event)
    requires Enabled(limits, s, e) && OfOneTask(e) && !OfThread(e)
    ensures var s' := Apply(limits, s, e);
            && s'.core.(controls := s.core.controls, active := s.core.active) == s.core
            && s'.core.controls.Keys == s.core.controls.Keys
            && s'.admitted == s.admitted && s'.dispatched == s.dispatched
  {
  }
}
