/**
  No deadlock: as long as an accepted task has no published result, some thread of the
  executor can take a step of its own.
 */
module Progress {
  import opened Wrappers
  import opened Tasks
  import opened Admission
  import opened Scheduling
  import opened Conservation
  import opened Fifo
  import opened Managers
  import opened Wakeups
  import opened SchedulerInvariant

  /** Owners that have left the deques and the manager's hands for good. */
  predicate Departed(p: Phase) {
    p.Closing? || p.Marked? || p.Waking? || p.Released? || p.Done? || p.Abandoned? || p.Forgotten?
  }

  predicate DepartedAt(owners: map<nat, Owner>, id: nat) {
    id in owners && Departed(owners[id].phase)
  }

  predicate ClosingDeparted(s: State) {
    forall m :: m in s.managers && s.managers[m].Draining? ==>
      forall id :: id in s.managers[m].closing ==> DepartedAt(s.owners, id)
  }

  ghost predicate StaysDeparted(s: State, s': State) {
    forall id :: DepartedAt(s.owners, id) ==> DepartedAt(s'.owners, id)
  }

  // ---- the manager only ever waits for owners that are on their way ----

  lemma OneTaskStaysDeparted(limits: Limits, s: State, e: Event)
    requires Enabled(limits, s, e) && OfOneTask(e)
    ensures StaysDeparted(s, Apply(limits, s, e))
  {
  }

  lemma {:induction false} PromoteStaysDeparted(limits: Limits, s: State)
    requires Conserved(limits, s) && Fair(s)
    ensures StaysDeparted(s, PromoteState(limits, s))
    decreases |s.core.queue|
  {
    if CanPromote(limits, s.core) {
      PromoteOneStaysDeparted(limits, s);
      PromoteStaysDeparted(limits, PromoteOneState(s));
    }
  }

  lemma PromoteOneStaysDeparted(limits: Limits, s: State)
    requires Conserved(limits, s) && Fair(s) && CanPromote(limits, s.core)
    ensures Conserved(limits, PromoteOneState(s)) && Fair(PromoteOneState(s))
    ensures StaysDeparted(s, PromoteOneState(s))
  {
    assert TaskAt(s.core, s.owners, s.core.queue[0]);
    BehindIfFair(s);
    PromoteOneKeeps(limits, s);
    PromoteOneKeepsOrder(s);
  }

  lemma DispatchStaysDeparted(limits: Limits, s: State)
    requires Conserved(limits, s)
    ensures StaysDeparted(s, DispatchState(s))
  {
    if s.core.ready != [] {
      assert s.core.ready[0] in s.core.ready;
      assert TaskAt(s.core, s.owners, s.core.ready[0]);
    }
  }

  lemma PassStaysDeparted(limits: Limits, s: State)
    requires Conserved(limits, s) && Fair(s)
    ensures StaysDeparted(SweepState(s), PassState(limits, s))
  {
    var s1 := SweepState(s);
    SweepKeeps(limits, s);
    SweepKeepsOrder(s);
    PromoteStaysDeparted(limits, s1);
    PromoteKeepsOrder(limits, s1);
    DispatchStaysDeparted(limits, PromoteState(limits, s1));
  }

  lemma PassClosesDeparted(limits: Limits, s: State, m: nat)
    requires Inv(limits, s) && ClosingDeparted(s) && ManagerAt(s, m, Top)
    ensures ClosingDeparted(ApplyPass(limits, s, m))
  {
    PassStaysDeparted(limits, s);
    assert forall n :: n in s.managers ==> n == m;
    forall id | id in Swept(s)
      ensures DepartedAt(SweepState(s).owners, id)
    {
      assert TaskAt(s.core, s.owners, id);
    }
  }

  /** Closing owners, and nothing else, keeps what has departed. */
  lemma ClosingClosesDeparted(s: State, s': State)
    requires ClosingDeparted(s) && s'.managers == s.managers
    requires forall id :: id in s.owners ==>
               id in s'.owners && (s'.owners[id].phase == s.owners[id].phase || s'.owners[id].phase.Closing?)
    ensures ClosingDeparted(s')
  {
    forall m, id | m in s'.managers && s'.managers[m].Draining? && id in s'.managers[m].closing
      ensures DepartedAt(s'.owners, id)
    {
      assert DepartedAt(s.owners, id);
    }
  }

  lemma CancelClosesDeparted(s: State, id: nat, reason: CancelReason)
    requires ClosingDeparted(s) && HasPhase(s, id)
    ensures ClosingDeparted(ApplyCancel(s, id, reason))
  {
    ClosingClosesDeparted(s, ApplyCancel(s, id, reason));
  }

  lemma SectionClosesDeparted(limits: Limits, s: State, e: Event)
    requires ClosingDeparted(s) && Enabled(limits, s, e)
    requires e.FailPendingSection? || e.CancelSection? || e.ShutdownSection? || e.ShutdownRequests?
    ensures ClosingDeparted(Apply(limits, s, e))
  {
    match e
    case FailPendingSection(a) => ClosingClosesDeparted(s, ApplyFailPending(s, a));
    case CancelSection(id, reason) => CancelClosesDeparted(s, id, reason);
    case ShutdownSection(k, late) => ClosingClosesDeparted(s, ApplyShutdown(s, k, late));
    case ShutdownRequests(k, id) =>
      CancelClosesDeparted(s, id, Shutdown);
      RequestIsCancel(s, k, id);
  }

  lemma SubmitClosesDeparted(limits: Limits, s: State, a: nat, deadline: Option<nat>, supervised: bool)
    requires Inv(limits, s) && ClosingDeparted(s) && s.core.nextId < MAX_ID
    ensures ClosingDeparted(ApplySubmit(limits, s, a, deadline, supervised))
  {
    SubmitShape(limits, s, a, deadline, supervised);
    assert s.core.nextId !in s.owners;
  }

  lemma HandoverClosesDeparted(limits: Limits, s: State, m: nat, ok: bool)
    requires Inv(limits, s) && ClosingDeparted(s) && m in s.managers && s.managers[m].SpawningTask?
    ensures ClosingDeparted(ApplyDispatch(s, m, s.managers[m].id, ok))
  {
    assert forall n :: n in s.managers ==> n == m;
    assert Carries(s.managers[m]).Some?;
  }

  lemma StepKeepsClosingDeparted(limits: Limits, s: State, e: Event)
    requires Inv(limits, s) && ClosingDeparted(s) && Enabled(limits, s, e)
    ensures ClosingDeparted(Apply(limits, s, e))
  {
    if OfOneTask(e) {
      OneTaskStaysDeparted(limits, s, e);
      OneTaskKeepsClosings(limits, s, e);
    } else if Quiet(e) {
      QuietChangesNothing(limits, s, e);
      QuietKeepsClosings(limits, s, e);
    } else {
      match e
      case SubmitSection(a, deadline, supervised) => SubmitClosesDeparted(limits, s, a, deadline, supervised);
      case ManagerPass(m) => PassClosesDeparted(limits, s, m);
      case DispatchTask(m, ok) => HandoverClosesDeparted(limits, s, m, ok);
      case _ => SectionClosesDeparted(limits, s, e);
    }
  }

  /** No manager starts to wait for more owners. */
  predicate ClosingsStay(s: State, s': State) {
    forall m :: m in s'.managers && s'.managers[m].Draining? ==> m in s.managers && s.managers[m] == s'.managers[m]
  }

  lemma OneTaskKeepsClosings(limits: Limits, s: State, e: Event)
    requires Enabled(limits, s, e) && OfOneTask(e)
    ensures ClosingsStay(s, Apply(limits, s, e))
  {
  }

  lemma QuietKeepsClosings(limits: Limits, s: State, e: Event)
    requires Enabled(limits, s, e) && Quiet(e)
    ensures ClosingsStay(s, Apply(limits, s, e))
  {
    if OfManager(e) {
      ManagerKeepsClosings(limits, s, e);
    } else {
      CallersKeepClosings(limits, s, e);
    }
  }

  predicate OfManager(e: Event) {
    e.ManagerDrained? || e.ManagerExit? || e.ManagerRecheck? || e.ManagerWake?
  }

  lemma ManagerKeepsClosings(limits: Limits, s: State, e: Event)
    requires Enabled(limits, s, e) && Quiet(e) && OfManager(e)
    ensures ClosingsStay(s, Apply(limits, s, e))
  {
  }

  lemma CallersKeepClosings(limits: Limits, s: State, e: Event)
    requires Enabled(limits, s, e) && Quiet(e) && !OfManager(e)
    ensures ClosingsStay(s, Apply(limits, s, e))
  {
  }

  // ---- the earliest deadline exists ----

  ghost predicate IsLeast(x: nat, d: set<nat>) {
    x in d && forall y :: y in d ==> x <= y
  }

  lemma {:induction false} LeastExists(d: set<nat>)
    requires d != {}
    ensures exists x :: IsLeast(x, d)
  {
    var x :| x in d;
    var rest := d - {x};
    assert forall y :: y in d ==> y == x || y in rest;
    if rest == {} {
      assert IsLeast(x, d);
    } else {
      LeastExists(rest);
      var r :| IsLeast(r, rest);
      assert IsLeast(if x <= r then x else r, d);
    }
  }

  lemma NextDeadlineExists(c: Core)
    ensures exists u: Option<nat> :: IsNextDeadline(c, u)
  {
    var d := set id | id in c.controls && Enforced(c, id) && c.controls[id].deadline.Some? :: c.controls[id].deadline.value;
    assert forall id :: Enforced(c, id) && c.controls[id].deadline.Some? ==> c.controls[id].deadline.value in d;
    if d == {} {
      assert IsNextDeadline(c, None);
    } else {
      LeastExists(d);
      var x :| IsLeast(x, d);
      assert IsNextDeadline(c, Some(x));
    }
  }

  // ---- somebody can move ----

  /** Steps a caller of `shutdown` takes. */
  predicate OfShutdown(e: Event) {
    e.ShutdownSection? || e.ShutdownIdle? || e.ShutdownGraceOver? || e.ShutdownCollects? || e.ShutdownRequests?
    || e.ShutdownReturns?
  }

  /** Steps the executor's own threads take; not callers' requests, clock ticks or spurious wake-ups. */
  ghost predicate Working(limits: Limits, s: State, e: Event) {
    && Enabled(limits, s, e)
    && !e.Tick? && !e.NotifyAll? && !e.SubmitSection? && !e.CancelSection? && !e.TaskReportsStarted? && !OfShutdown(e)
    && (e.ManagerWake? ==> s.managers[e.m].signalled || s.managers[e.m].until <= s.now)
  }

  ghost predicate CanWork(limits: Limits, s: State) {
    exists e :: Working(limits, s, e)
  }

  lemma SubmitterWorks(limits: Limits, s: State, a: nat)
    requires a in s.submitters
    ensures CanWork(limits, s)
  {
    match s.submitters[a]
    case Notifying =>
      if m :| Dozing(s, m) {
        assert Working(limits, s, SubmitNotify(a, Some(m)));
      } else {
        assert forall m :: m in s.managers && s.managers[m].Sleeping? ==> Dozing(s, m) || s.managers[m].signalled;
        assert Working(limits, s, SubmitNotify(a, None));
      }
    case Ensuring => assert Working(limits, s, EnsureManager(a));
    case SpawningManager => assert Working(limits, s, SpawnManagerFails(a));
    case Failing => assert Working(limits, s, FailPendingSection(a));
  }

  predicate Movable(p: Phase) {
    p.OnThread? || p.Running? || p.Closing? || p.Marked? || p.Waking? || p.Released? || p.Abandoned?
  }

  lemma OwnerWorks(limits: Limits, s: State, id: nat)
    requires HasPhase(s, id) && Movable(s.owners[id].phase)
    ensures CanWork(limits, s)
  {
    match s.owners[id].phase
    case OnThread => assert Working(limits, s, TaskBegins(id));
    case Running => assert Working(limits, s, TaskResolves(id, Finished(0)));
    case Closing(_, _) => assert Working(limits, s, OwnerMarksTerminal(id));
    case Marked(_) => assert Working(limits, s, OwnerReleases(id));
    case Abandoned => assert Working(limits, s, OwnerReleases(id));
    case Waking(_) => assert Working(limits, s, OwnerNotifies(id));
    case Released(_) => assert Working(limits, s, OwnerPublishes(id));
  }

  lemma DrainingWorks(limits: Limits, s: State, m: nat)
    requires Inv(limits, s) && ClosingDeparted(s) && m in s.managers && s.managers[m].Draining?
    ensures CanWork(limits, s)
  {
    if ClosedAll(s, s.managers[m].closing) {
      assert Working(limits, s, ManagerDrained(m));
    } else {
      var id :| id in s.managers[m].closing && !(id in s.owners && s.owners[id].phase.Finished());
      assert DepartedAt(s.owners, id);
      OwnerWorks(limits, s, id);
    }
  }

  /** An awake manager can always go on. */
  lemma ManagerWorks(limits: Limits, s: State, m: nat)
    requires Inv(limits, s) && ClosingDeparted(s) && m in s.managers && !Dozing(s, m)
    ensures CanWork(limits, s)
  {
    if s.managers[m].Draining? {
      DrainingWorks(limits, s, m);
    } else if s.managers[m].Rechecking? {
      RecheckWorks(limits, s, m);
    } else {
      FreeManagerWorks(limits, s, m);
    }
  }

  lemma FreeManagerWorks(limits: Limits, s: State, m: nat)
    requires m in s.managers && !Dozing(s, m) && !s.managers[m].Draining? && !s.managers[m].Rechecking?
    ensures CanWork(limits, s)
  {
    match s.managers[m]
    case Top => assert Working(limits, s, ManagerPass(m));
    case Sleeping(_, _) => assert Working(limits, s, ManagerWake(m));
    case SpawningTask(_) => assert Working(limits, s, DispatchTask(m, true));
    case Exiting => assert Working(limits, s, ManagerExit(m));
  }

  lemma RecheckWorks(limits: Limits, s: State, m: nat)
    requires ManagerAt(s, m, Rechecking)
    ensures CanWork(limits, s)
  {
    NextDeadlineExists(s.core);
    var u: Option<nat> :| IsNextDeadline(s.core, u);
    var until := if u.Some? then u.value else s.now + 100;
    assert SleepsUntil(s, until);
    assert Working(limits, s, ManagerRecheck(m, until));
  }

  /** With the manager asleep, whatever holds an active slot can go on. */
  lemma ActiveWorks(limits: Limits, s: State, m: nat, id: nat)
    requires Inv(limits, s) && Dozing(s, m) && s.core.ready == [] && id in s.core.active
    ensures CanWork(limits, s)
  {
    assert TaskAt(s.core, s.owners, id);
    assert forall n :: n in s.managers ==> n == m;
    NothingCarried(s);
    assert id !in Dispatchings(s.owners);
    OwnerWorks(limits, s, id);
  }

  lemma DozingWorks(limits: Limits, s: State, m: nat, id: nat)
    requires Inv(limits, s) && Dozing(s, m) && limits.active > 0
    requires id in s.core.queue || id in s.core.ready
    ensures CanWork(limits, s)
  {
    assert MaySleep(limits, s, s.managers[m].until);
    if Pending(s) {
      if a :| IsNotifying(s, a) {
        SubmitterWorks(limits, s, a);
      } else {
        var x :| IsWaking(s, x);
        OwnerWorks(limits, s, x);
      }
    } else {
      assert |s.core.active| == limits.active;
      assert s.core.active != {};
      var x :| x in s.core.active;
      ActiveWorks(limits, s, m, x);
    }
  }

  lemma WaitingWorks(limits: Limits, s: State, id: nat)
    requires Inv(limits, s) && ClosingDeparted(s) && limits.active > 0
    requires id in s.core.queue || id in s.core.ready
    ensures CanWork(limits, s)
  {
    if a :| a in s.submitters {
      SubmitterWorks(limits, s, a);
    } else {
      assert forall a :: !IsStarting(s, a) && !IsSubmitting(s, a);
      assert s.managers != map[];
      var m :| m in s.managers;
      if Dozing(s, m) {
        DozingWorks(limits, s, m, id);
      } else {
        ManagerWorks(limits, s, m);
      }
    }
  }

  lemma UnfinishedWorks(limits: Limits, s: State, id: nat)
    requires Inv(limits, s) && ClosingDeparted(s) && limits.active > 0
    requires HasPhase(s, id) && !s.owners[id].phase.Done?
    ensures CanWork(limits, s)
  {
    assert TaskAt(s.core, s.owners, id);
    if s.owners[id].phase.InQueue? || s.owners[id].phase.InReady? {
      WaitingWorks(limits, s, id);
    } else if s.owners[id].phase.Dispatching? {
      assert id in Dispatchings(s.owners);
      var m :| m in s.managers && Carries(s.managers[m]) == Some(id);
      ManagerWorks(limits, s, m);
    } else {
      OwnerWorks(limits, s, id);
    }
  }

  lemma {:induction false} RunKeepsClosingDeparted(limits: Limits, states: seq<State>, events: seq<Event>, i: nat)
    requires IsRun(limits, states, events) && i < |states|
    ensures Inv(limits, states[i]) && ClosingDeparted(states[i])
  {
    RunKeepsInv(limits, states, events, i);
    if i > 0 {
      RunKeepsClosingDeparted(limits, states, events, i - 1);
      StepKeepsClosingDeparted(limits, states[i - 1], events[i - 1]);
    }
  }

  /** No reachable state with an unpublished task is stuck, whatever shutdown calls are open. */
  lemma NeverStuck(limits: Limits, states: seq<State>, events: seq<Event>, i: nat, id: nat)
    requires IsRun(limits, states, events) && i < |states| && limits.active > 0
    requires id in states[i].core.controls
    ensures id in states[i].owners
    ensures states[i].owners[id].result.None? ==> exists e :: Working(limits, states[i], e)
  {
    RunKeepsClosingDeparted(limits, states, events, i);
    assert TaskAt(states[i].core, states[i].owners, id);
    if states[i].owners[id].result.None? {
      UnfinishedWorks(limits, states[i], id);
    }
  }
}
