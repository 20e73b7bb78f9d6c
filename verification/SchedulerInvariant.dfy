/**
  The inductive invariant of the executor: every event keeps conservation, order, the
  manager's uniqueness, wake-ups and the shutdown counts together.
 */
module SchedulerInvariant {
  import opened Wrappers
  import opened Tasks
  import opened Admission
  import opened Scheduling
  import opened Conservation
  import opened Fifo
  import opened Managers
  import opened Wakeups
  import opened ShutdownCounts

  ghost predicate Inv(limits: Limits, s: State) {
    && Conserved(limits, s) && Fair(s) && Managed(s)
    && Awake(limits, s) && ShutdownsClosed(s) && Counted(s)
  }

  lemma InitialHolds(limits: Limits)
    ensures Inv(limits, InitialState)
  {
  }

  // ---- order, closing and counts for steps that only take away ----

  lemma SameDequesKeep(s: State, s': State)
    requires Fair(s) && Counted(s) && ShutdownsClosed(s)
    requires s'.admitted == s.admitted && s'.dispatched == s.dispatched && s'.shutdowns == s.shutdowns
    requires s'.core.controls.Keys == s.core.controls.Keys && s'.core.accepting == s.core.accepting
    requires Within(s'.core.queue, s.core.queue) && Within(s'.core.ready, s.core.ready)
    requires s'.core.active <= s.core.active
    requires forall id :: ByShutdown(s.core, id) ==> ByShutdown(s'.core, id)
    ensures Fair(s') && Counted(s') && ShutdownsClosed(s')
  {
    RemovalKeepsOrder(s, s');
    LaterKeepsCounts(s, s');
  }

  lemma OneTaskKeepsReasons(limits: Limits, s: State, e: Event)
    requires Enabled(limits, s, e) && OfOneTask(e)
    ensures forall id :: ByShutdown(s.core, id) ==> ByShutdown(Apply(limits, s, e).core, id)
    ensures Apply(limits, s, e).core.active <= s.core.active
    ensures Apply(limits, s, e).shutdowns == s.shutdowns
  {
  }

  lemma OneTaskKeepsAwake(limits: Limits, s: State, e: Event)
    requires Conserved(limits, s) && Awake(limits, s) && Enabled(limits, s, e) && OfOneTask(e)
    ensures Awake(limits, Apply(limits, s, e))
  {
    if OfThread(e) {
      ThreadKeepsAwake(limits, s, e);
    } else {
      OwnerKeepsAwake(limits, s, e);
    }
  }

  lemma ThreadKeepsAwake(limits: Limits, s: State, e: Event)
    requires Conserved(limits, s) && Awake(limits, s) && Enabled(limits, s, e) && OfThread(e)
    ensures Awake(limits, Apply(limits, s, e))
  {
    match e
    case TaskBegins(id) => BeginKeepsAwake(limits, s, id);
    case TaskReportsStarted(id) => ReportsStartedKeepsAwake(limits, s, id);
    case TaskResolves(id, result) => ResolveKeepsAwake(limits, s, id, result);
    case TaskPanics(id) => PanicKeepsAwake(limits, s, id);
  }

  lemma OwnerKeepsAwake(limits: Limits, s: State, e: Event)
    requires Conserved(limits, s) && Awake(limits, s) && Enabled(limits, s, e) && OfOneTask(e) && !OfThread(e)
    ensures Awake(limits, Apply(limits, s, e))
  {
    match e
    case OwnerMarksTerminal(id) => MarkTerminalKeepsAwake(limits, s, id);
    case OwnerReleases(id) => ReleaseKeepsAwake(limits, s, id);
    case OwnerNotifies(id) => NobodyDozes(limits, Apply(limits, s, e));
    case OwnerPublishes(id) => PublishKeepsAwake(limits, s, id);
  }

  lemma OneTaskKeepsInv(limits: Limits, s: State, e: Event)
    requires Inv(limits, s) && Enabled(limits, s, e) && OfOneTask(e)
    ensures Inv(limits, Apply(limits, s, e))
  {
    OneTaskKeeps(limits, s, e);
    OneTaskFrame(limits, s, e);
    OneTaskKeepsReasons(limits, s, e);
    SameDequesKeep(s, Apply(limits, s, e));
    OneTaskKeepsManaged(limits, s, e);
    OneTaskKeepsAwake(limits, s, e);
  }

  // ---- submitters, manager and shutdown bookkeeping ----

  predicate Bookkeeping(e: Event) {
    Quiet(e) && !e.ShutdownIdle? && !e.ShutdownGraceOver? && !e.ShutdownCollects? && !e.ShutdownReturns?
  }

  lemma BookkeepingLeavesShutdowns(limits: Limits, s: State, e: Event)
    requires Enabled(limits, s, e) && Bookkeeping(e)
    ensures Apply(limits, s, e).shutdowns == s.shutdowns
  {
  }

  lemma BookkeepingKeepsManaged(limits: Limits, s: State, e: Event)
    requires Conserved(limits, s) && Managed(s) && Enabled(limits, s, e) && Bookkeeping(e)
    ensures Managed(Apply(limits, s, e))
  {
    match e
    case Tick(_) => FrameKeepsManaged(s, Apply(limits, s, e));
    case SubmitNotify(a, woken) => NotifyKeepsManaged(limits, s, a, woken);
    case EnsureManager(a) => EnsureKeepsManaged(s, a);
    case SpawnManager(a, m) => SpawnKeepsManaged(s, a, m);
    case SpawnManagerFails(a) => SpawnFailsKeepsManaged(s, a);
    case ManagerDrained(m) => DrainedKeepsManaged(s, m);
    case ManagerExit(m) => ExitKeepsManaged(s, m);
    case ManagerRecheck(m, until) => RecheckKeepsManaged(limits, s, m, until);
    case ManagerWake(m) => MoveKeepsManaged(s, m, Top);
    case NotifyAll => SignalsKeepManaged(s, Apply(limits, s, e));
  }

  lemma NotifiersStay(limits: Limits, s: State, s': State)
    requires Awake(limits, s)
    requires s'.core == s.core && s'.owners == s.owners
    requires forall m :: Dozing(s', m) ==> Dozing(s, m) && s'.managers[m].until == s.managers[m].until
    requires forall a :: IsNotifying(s, a) ==> IsNotifying(s', a)
    ensures Awake(limits, s')
  {
    assert forall id :: IsWaking(s, id) ==> IsWaking(s', id);
    assert Pending(s) ==> Pending(s');
    assert forall id :: Fresh(s, id) ==> Fresh(s', id);
    StepKeepsAwake(limits, s, s');
  }

  lemma SubmitterKeepsAwake(limits: Limits, s: State, e: Event)
    requires Conserved(limits, s) && Managed(s) && Awake(limits, s) && ShutdownsClosed(s) && Enabled(limits, s, e)
    requires e.SubmitNotify? || e.EnsureManager? || e.SpawnManager? || e.SpawnManagerFails? || e.Tick? || e.NotifyAll?
    ensures Awake(limits, Apply(limits, s, e))
  {
    match e
    case Tick(_) => NotifiersStay(limits, s, Apply(limits, s, e));
    case SubmitNotify(a, woken) => NotifyKeepsAwake(limits, s, a, woken);
    case EnsureManager(a) => NotifiersStay(limits, s, ApplyEnsure(s, a));
    case SpawnManager(a, m) => NotifiersStay(limits, s, Apply(limits, s, e));
    case SpawnManagerFails(a) => NotifiersStay(limits, s, Apply(limits, s, e));
    case NotifyAll => NobodyDozes(limits, Apply(limits, s, e));
  }

  lemma ManagerKeepsAwake(limits: Limits, s: State, e: Event)
    requires Managed(s) && Enabled(limits, s, e)
    requires e.ManagerDrained? || e.ManagerExit? || e.ManagerRecheck? || e.ManagerWake?
    ensures Awake(limits, Apply(limits, s, e))
  {
    match e
    case ManagerDrained(m) => ManagerStepKeepsAwake(limits, s, Apply(limits, s, e), m);
    case ManagerExit(m) => ManagerStepKeepsAwake(limits, s, Apply(limits, s, e), m);
    case ManagerRecheck(m, until) => RecheckKeepsAwake(limits, s, m, until);
    case ManagerWake(m) => ManagerStepKeepsAwake(limits, s, Apply(limits, s, e), m);
  }

  lemma BookkeepingKeepsInv(limits: Limits, s: State, e: Event)
    requires Inv(limits, s) && Enabled(limits, s, e) && Bookkeeping(e)
    ensures Inv(limits, Apply(limits, s, e))
  {
    QuietChangesNothing(limits, s, e);
    BookkeepingLeavesShutdowns(limits, s, e);
    SameDequesKeep(s, Apply(limits, s, e));
    BookkeepingKeepsManaged(limits, s, e);
    if e.ManagerDrained? || e.ManagerExit? || e.ManagerRecheck? || e.ManagerWake? {
      ManagerKeepsAwake(limits, s, e);
    } else {
      SubmitterKeepsAwake(limits, s, e);
    }
  }

  lemma CallMovesKeepInv(limits: Limits, s: State, k: nat, pc: ShutdownPc)
    requires Inv(limits, s) && k in s.shutdowns
    requires pc.Requesting? ==> forall id :: id in pc.todo ==> id in s.core.active
    requires pc.Waiting? || pc.Collecting? ==> s.shutdowns[k].requested == {}
    ensures Inv(limits, SetCall(s, k, s.shutdowns[k].(pc := pc)))
  {
    var s' := SetCall(s, k, s.shutdowns[k].(pc := pc));
    MoveKeepsCounts(s, k, pc);
    FrameKeepsManaged(s, s');
    NotifiersStay(limits, s, s');
  }

  lemma CollectKeepsInv(limits: Limits, s: State, k: nat)
    requires Inv(limits, s) && Enabled(limits, s, ShutdownCollects(k))
    ensures Inv(limits, Apply(limits, s, ShutdownCollects(k)))
  {
    CallMovesKeepInv(limits, s, k, Requesting(
      set id | id in s.core.active && id in s.core.controls && s.core.controls[id].lifecycle.Started?));
  }

  lemma GraceOverKeepsInv(limits: Limits, s: State, k: nat)
    requires Inv(limits, s) && k in s.shutdowns && s.shutdowns[k].pc.Waiting?
    ensures Inv(limits, SetCall(s, k, s.shutdowns[k].(pc := Collecting)))
  {
    assert CallOk(s, s.shutdowns[k]);
    CallMovesKeepInv(limits, s, k, Collecting);
  }

  lemma CallEventKeepsInv(limits: Limits, s: State, e: Event)
    requires Inv(limits, s) && Enabled(limits, s, e)
    requires e.ShutdownIdle? || e.ShutdownGraceOver? || e.ShutdownCollects? || e.ShutdownReturns?
    ensures Inv(limits, Apply(limits, s, e))
  {
    match e
    case ShutdownIdle(k) => CallMovesKeepInv(limits, s, k, Returned);
    case ShutdownGraceOver(k) => GraceOverKeepsInv(limits, s, k);
    case ShutdownCollects(k) => CollectKeepsInv(limits, s, k);
    case ShutdownReturns(k) => CallMovesKeepInv(limits, s, k, Returned);
  }

  // ---- sections that work on the deques ----

  lemma SubmittedKeepsInv(limits: Limits, s: State, s': State, a: nat, direct: bool, control: Control)
    requires Inv(limits, s) && a !in s.submitters && NewTask(s, s', a, direct, control)
    requires if direct then SlotFree(limits, s.core) else |s.core.queue| < limits.queue
    ensures Inv(limits, s')
  {
    SubmittedKeeps(limits, s, s', a, direct, control);
    SubmittedKeepsOrder(s, s', a, direct, control);
    SubmittedKeepsManaged(limits, s, s', a, direct, control);
    SubmittedKeepsAwake(limits, s, s', a, direct, control);
    SubmittedIsLater(s, s', a, direct, control);
    LaterKeepsCounts(s, s');
  }

  lemma RefusedKeepsInv(limits: Limits, s: State, s': State)
    requires Inv(limits, s) && Refused(s, s')
    ensures Inv(limits, s')
  {
    RefusedKeeps(limits, s, s');
    SameDequesKeep(s, s');
    FrameKeepsManaged(s, s');
    assert forall a :: IsNotifying(s, a) ==> IsNotifying(s', a);
    assert forall id :: IsWaking(s, id) ==> IsWaking(s', id);
    assert forall id :: Fresh(s, id) ==> Fresh(s', id);
    StepKeepsAwake(limits, s, s');
  }

  lemma SubmitKeepsInv(limits: Limits, s: State, a: nat, deadline: Option<nat>, supervised: bool)
    requires Inv(limits, s) && a !in s.submitters && s.core.nextId < MAX_ID
    ensures Inv(limits, ApplySubmit(limits, s, a, deadline, supervised))
  {
    var s' := ApplySubmit(limits, s, a, deadline, supervised);
    SubmitShape(limits, s, a, deadline, supervised);
    if Refused(s, s') {
      RefusedKeepsInv(limits, s, s');
    } else if NewTask(s, s', a, true, Control(deadline, supervised, AcceptedNotStarted, None)) {
      SubmittedKeepsInv(limits, s, s', a, true, Control(deadline, supervised, AcceptedNotStarted, None));
    } else {
      SubmittedKeepsInv(limits, s, s', a, false, Control(deadline, supervised, Queued, None));
    }
  }

  lemma FailPendingKeepsInv(limits: Limits, s: State, a: nat)
    requires Inv(limits, s) && SubmitterAt(s, a, Failing)
    ensures Inv(limits, ApplyFailPending(s, a))
  {
    var s' := ApplyFailPending(s, a);
    FailPendingKeeps(limits, s, a);
    SameDequesKeep(s, s');
    FailPendingKeepsManaged(limits, s, a);
    DrainKeepsAwake(limits, s, s', Failed, InternalFailure);
  }

  lemma PassKeepsInv(limits: Limits, s: State, m: nat)
    requires Inv(limits, s) && ManagerAt(s, m, Top)
    ensures Inv(limits, ApplyPass(limits, s, m))
  {
    var s' := ApplyPass(limits, s, m);
    PassFrame(limits, s);
    PassKeepsOrder(limits, s);
    PassIsLater(limits, s);
    LaterKeepsCounts(s, PassState(limits, s));
    LaterKeepsCounts(PassState(limits, s), s');
    PassKeepsManaged(limits, s, m);
    ManagerStepKeepsAwake(limits, s, s', m);
  }

  lemma CancelKeepsInv(limits: Limits, s: State, id: nat, reason: CancelReason)
    requires Inv(limits, s) && HasPhase(s, id)
    ensures Inv(limits, ApplyCancel(s, id, reason))
  {
    CancelKeeps(limits, s, id, reason);
    CancelKeepsOrder(s, id, reason);
    CancelKeepsManaged(limits, s, id, reason);
    CancelKeepsAwake(limits, s, id, reason);
    CancelIsLater(s, id, reason);
    LaterKeepsCounts(s, ApplyCancel(s, id, reason));
  }

  lemma ShutdownKeepsAwake(limits: Limits, s: State, k: nat, late: set<nat>)
    requires Conserved(limits, s) && Awake(limits, s)
    ensures Awake(limits, ApplyShutdown(s, k, late))
  {
    DrainKeepsAwake(limits, s, ApplyShutdown(s, k, late), Terminated, CancelledFailure);
  }

  lemma ShutdownKeepsFair(s: State, k: nat, late: set<nat>)
    requires Fair(s)
    ensures Fair(ApplyShutdown(s, k, late)) && ShutdownsClosed(ApplyShutdown(s, k, late))
  {
    RemovalKeepsOrder(s, ApplyShutdown(s, k, late));
  }

  lemma ShutdownKeepsInv(limits: Limits, s: State, k: nat, late: set<nat>)
    requires Inv(limits, s) && k !in s.shutdowns && LateStarts(s, late)
    ensures Inv(limits, ApplyShutdown(s, k, late))
  {
    ShutdownKeeps(limits, s, k, late);
    ShutdownKeepsFair(s, k, late);
    ShutdownKeepsManaged(limits, s, k, late);
    ShutdownKeepsAwake(limits, s, k, late);
    ShutdownKeepsCounts(limits, s, k, late);
  }

  /** Which call is counting makes no difference to the tasks. */
  lemma CallsDoNotMatter(limits: Limits, s: State, s': State)
    requires Inv(limits, s) && s' == s.(shutdowns := s'.shutdowns)
    requires s'.shutdowns.Keys == s.shutdowns.Keys && Counted(s')
    ensures Inv(limits, s')
  {
    FrameKeepsManaged(s, s');
    NotifiersStay(limits, s, s');
  }

  lemma RequestIsCancel(s: State, k: nat, id: nat)
    requires k in s.shutdowns && s.shutdowns[k].pc.Requesting? && HasPhase(s, id)
    ensures var s1 := ApplyCancel(s, id, Shutdown); var s' := ApplyShutdownRequest(s, k, id);
            s' == s1.(shutdowns := s'.shutdowns) && s'.shutdowns.Keys == s.shutdowns.Keys
  {
  }

  lemma RequestKeepsInv(limits: Limits, s: State, k: nat, id: nat)
    requires Inv(limits, s) && HasPhase(s, id)
    requires k in s.shutdowns && s.shutdowns[k].pc.Requesting? && id in s.shutdowns[k].pc.todo
    ensures Inv(limits, ApplyShutdownRequest(s, k, id))
  {
    CancelKeepsInv(limits, s, id, Shutdown);
    RequestKeepsCounts(s, k, id);
    RequestIsCancel(s, k, id);
    CallsDoNotMatter(limits, ApplyCancel(s, id, Shutdown), ApplyShutdownRequest(s, k, id));
  }

  lemma DispatchKeepsInv(limits: Limits, s: State, m: nat, ok: bool)
    requires Inv(limits, s) && m in s.managers && s.managers[m].SpawningTask?
    ensures Inv(limits, ApplyDispatch(s, m, s.managers[m].id, ok))
  {
    var id := s.managers[m].id;
    var s' := ApplyDispatch(s, m, id, ok);
    assert Carries(s.managers[m]) == Some(id);
    DispatchTaskKeepsManaged(s, m, id, ok);
    DispatchTaskKeeps(limits, s, m, id, ok);
    SameDequesKeep(s, s');
    ManagerStepKeepsAwake(limits, s, s', m);
  }

  // ---- the theorem ----

  lemma StepKeepsInv(limits: Limits, s: State, e: Event)
    requires Inv(limits, s) && Enabled(limits, s, e)
    ensures Inv(limits, Apply(limits, s, e))
  {
    if OfOneTask(e) {
      OneTaskKeepsInv(limits, s, e);
    } else if Bookkeeping(e) {
      BookkeepingKeepsInv(limits, s, e);
    } else if Quiet(e) {
      CallEventKeepsInv(limits, s, e);
    } else {
      SectionKeepsInv(limits, s, e);
    }
  }

  lemma SectionKeepsInv(limits: Limits, s: State, e: Event)
    requires Inv(limits, s) && Enabled(limits, s, e) && !OfOneTask(e) && !Quiet(e)
    ensures Inv(limits, Apply(limits, s, e))
  {
    match e
    case SubmitSection(a, deadline, supervised) => SubmitKeepsInv(limits, s, a, deadline, supervised);
    case FailPendingSection(a) => FailPendingKeepsInv(limits, s, a);
    case ManagerPass(m) => PassKeepsInv(limits, s, m);
    case DispatchTask(m, ok) => DispatchKeepsInv(limits, s, m, ok);
    case CancelSection(id, reason) => CancelKeepsInv(limits, s, id, reason);
    case ShutdownSection(k, late) => ShutdownKeepsInv(limits, s, k, late);
    case ShutdownRequests(k, id) => RequestKeepsInv(limits, s, k, id);
  }

  /** Every state of every run satisfies the invariant. */
  lemma {:induction false} RunKeepsInv(limits: Limits, states: seq<State>, events: seq<Event>, i: nat)
    requires IsRun(limits, states, events) && i < |states|
    ensures Inv(limits, states[i])
  {
    if i == 0 {
      InitialHolds(limits);
    } else {
      RunKeepsInv(limits, states, events, i - 1);
      StepKeepsInv(limits, states[i - 1], events[i - 1]);
    }
  }
}
