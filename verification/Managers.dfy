/**
  The manager thread: at most one is alive or being started, exactly when
  `manager_started` says so, and waiting tasks are never left without one.
 */
module Managers {
  import opened Wrappers
  import opened Sequences
  import opened Tasks
  import opened Admission
  import opened Scheduling
  import opened Conservation
  import opened Fifo

  predicate IsStarting(s: State, a: nat) {
    a in s.submitters && s.submitters[a].SpawningManager?
  }

  ghost predicate Starting(s: State) {
    exists a :: IsStarting(s, a)
  }

  ghost predicate Alone(s: State) {
    && (forall m, n :: m in s.managers && n in s.managers ==> m == n)
    && (forall a, b :: IsStarting(s, a) && IsStarting(s, b) ==> a == b)
    && (s.managers != map[] ==> s.managerStarted && !Starting(s))
    && (Starting(s) ==> s.managerStarted)
    && (s.managerStarted ==> s.managers != map[] || Starting(s))
  }

  /** The task a manager has taken from `ready` and not yet handed to a thread. */
  function Carries(m: Manager): Option<nat> {
    if m.SpawningTask? then Some(m.id)
    else if m.Draining? && m.next.Spawn? then Some(m.next.id)
    else None
  }

  function Dispatchings(owners: map<nat, Owner>): set<nat> {
    set id | id in owners && owners[id].phase.Dispatching?
  }

  predicate Carried(s: State, id: nat) {
    exists m :: m in s.managers && Carries(s.managers[m]) == Some(id)
  }

  predicate Handover(s: State) {
    && (forall m :: m in s.managers && Carries(s.managers[m]).Some? ==>
          Carries(s.managers[m]).value in Dispatchings(s.owners))
    && (forall id :: id in Dispatchings(s.owners) ==> Carried(s, id))
  }

  predicate Leaving(m: Manager) {
    m.Exiting? || (m.Draining? && m.next.Exit?)
  }

  predicate LeavesClosed(s: State) {
    forall m :: m in s.managers && Leaving(s.managers[m]) ==> !s.core.accepting
  }

  predicate IsSubmitting(s: State, a: nat) {
    a in s.submitters && (s.submitters[a].Notifying? || s.submitters[a].Ensuring? || s.submitters[a].Failing?)
  }

  ghost predicate StillSubmitting(s: State) {
    exists a :: IsSubmitting(s, a)
  }

  /** No stranded work. */
  ghost predicate Attended(s: State) {
    s.core.queue != [] || s.core.ready != [] ==> s.managerStarted || StillSubmitting(s)
  }

  ghost predicate Managed(s: State) {
    Alone(s) && Handover(s) && LeavesClosed(s) && Attended(s)
  }

  // ---- steps of a submitter ----

  /** Managers may change place as long as they carry the same task and keep leaving or staying. */
  predicate SameBurden(m: Manager, n: Manager) {
    Carries(m) == Carries(n) && (Leaving(m) <==> Leaving(n))
  }

  lemma NotifyKeepsManaged(limits: Limits, s: State, a: nat, woken: Option<nat>)
    requires Managed(s) && Enabled(limits, s, SubmitNotify(a, woken))
    ensures Managed(ApplyNotifyOne(s, a, woken))
  {
    var s' := ApplyNotifyOne(s, a, woken);
    assert forall b :: IsStarting(s', b) <==> IsStarting(s, b);
    assert IsSubmitting(s', a);
    assert s'.managers.Keys == s.managers.Keys;
    assert forall m :: m in s.managers ==> SameBurden(s'.managers[m], s.managers[m]);
    assert forall id :: Carried(s, id) ==> Carried(s', id);
  }

  lemma EnsureKeepsManaged(s: State, a: nat)
    requires Managed(s) && SubmitterAt(s, a, Ensuring)
    ensures Managed(ApplyEnsure(s, a))
  {
    var s' := ApplyEnsure(s, a);
    if s.managerStarted {
      assert forall b :: IsStarting(s', b) <==> IsStarting(s, b);
    } else {
      assert forall b :: IsStarting(s', b) <==> b == a || IsStarting(s, b);
      assert IsStarting(s', a);
    }
    assert forall id :: Carried(s, id) ==> Carried(s', id);
  }

  lemma SpawnKeepsManaged(s: State, a: nat, m: nat)
    requires Managed(s) && SubmitterAt(s, a, SpawningManager)
    ensures Managed(s.(managers := s.managers[m := Top], submitters := s.submitters - {a}))
  {
    var s' := s.(managers := s.managers[m := Top], submitters := s.submitters - {a});
    assert IsStarting(s, a);
    assert s.managers == map[];
    forall b
      ensures !IsStarting(s', b)
    {
      assert IsStarting(s', b) ==> IsStarting(s, b);
    }
    assert m in s'.managers;
  }

  lemma SpawnFailsKeepsManaged(s: State, a: nat)
    requires Managed(s) && SubmitterAt(s, a, SpawningManager)
    ensures Managed(s.(managerStarted := false, submitters := s.submitters[a := Failing]))
  {
    var s' := s.(managerStarted := false, submitters := s.submitters[a := Failing]);
    assert IsStarting(s, a);
    assert s.managers == map[];
    forall b
      ensures !IsStarting(s', b)
    {
      assert IsStarting(s', b) ==> IsStarting(s, b);
    }
    assert IsSubmitting(s', a);
  }

  lemma SubmittedKeepsManaged(limits: Limits, s: State, s': State, a: nat, direct: bool, control: Control)
    requires Conserved(limits, s) && Managed(s) && a !in s.submitters && NewTask(s, s', a, direct, control)
    ensures Managed(s')
  {
    assert forall b :: IsStarting(s', b) <==> IsStarting(s, b);
    assert s.core.nextId !in s.owners;
    assert Dispatchings(s'.owners) == Dispatchings(s.owners);
    assert forall id :: Carried(s, id) ==> Carried(s', id);
    assert IsSubmitting(s', a);
  }

  lemma FailPendingKeepsManaged(limits: Limits, s: State, a: nat)
    requires Conserved(limits, s) && Managed(s) && SubmitterAt(s, a, Failing)
    ensures Managed(ApplyFailPending(s, a))
  {
    var s' := ApplyFailPending(s, a);
    assert forall b :: IsStarting(s', b) <==> IsStarting(s, b);
    ClosingKeepsDispatchings(limits, s, Elems(s.core.queue) + Elems(s.core.ready), Failed, InternalFailure);
    assert forall id :: Carried(s, id) ==> Carried(s', id);
  }

  /** Closing waiting tasks leaves the dispatched ones alone. */
  lemma ClosingKeepsDispatchings(limits: Limits, s: State, ids: set<nat>, target: Lifecycle, outcome: Outcome)
    requires Conserved(limits, s)
    requires forall id :: id in ids ==> id in s.core.queue || id in s.core.ready
    ensures Dispatchings(CloseAll(s.owners, ids, target, outcome)) == Dispatchings(s.owners)
  {
    forall id | id in ids && id in s.owners
      ensures !s.owners[id].phase.Dispatching?
    {
      assert TaskAt(s.core, s.owners, id);
    }
  }

  // ---- steps that leave managers and submitters alone ----

  lemma FrameKeepsManaged(s: State, s': State)
    requires Managed(s)
    requires s'.managers == s.managers && s'.submitters == s.submitters && s'.managerStarted == s.managerStarted
    requires Dispatchings(s'.owners) == Dispatchings(s.owners)
    requires s'.core.accepting ==> s.core.accepting
    requires s'.core.queue != [] || s'.core.ready != [] ==> s.core.queue != [] || s.core.ready != []
    ensures Managed(s')
  {
    assert forall b :: IsStarting(s', b) <==> IsStarting(s, b);
    assert forall b :: IsSubmitting(s, b) ==> IsSubmitting(s', b);
    assert forall id :: Carried(s, id) ==> Carried(s', id);
  }

  lemma SignalsKeepManaged(s: State, s': State)
    requires Managed(s)
    requires s'.core == s.core && s'.submitters == s.submitters && s'.managerStarted == s.managerStarted
    requires Dispatchings(s'.owners) == Dispatchings(s.owners)
    requires s'.managers == SignalAll(s.managers)
    ensures Managed(s')
  {
    assert forall b :: IsStarting(s', b) <==> IsStarting(s, b);
    assert forall b :: IsSubmitting(s, b) ==> IsSubmitting(s', b);
    assert s'.managers.Keys == s.managers.Keys;
    assert forall m :: m in s.managers ==> SameBurden(s'.managers[m], s.managers[m]);
    assert forall id :: Carried(s, id) ==> Carried(s', id);
  }

  lemma CancelKeepsManaged(limits: Limits, s: State, id: nat, reason: CancelReason)
    requires Conserved(limits, s) && Managed(s) && HasPhase(s, id)
    ensures Managed(ApplyCancel(s, id, reason))
  {
    var s' := ApplyCancel(s, id, reason);
    assert TaskAt(s.core, s.owners, id);
    assert Dispatchings(s'.owners) == Dispatchings(s.owners);
    FrameKeepsManaged(s, s');
  }

  lemma ShutdownKeepsManaged(limits: Limits, s: State, k: nat, late: set<nat>)
    requires Conserved(limits, s) && Managed(s)
    ensures Managed(ApplyShutdown(s, k, late))
  {
    ClosingKeepsDispatchings(limits, s, Elems(s.core.queue) + Elems(s.core.ready), Terminated, CancelledFailure);
    FrameKeepsManaged(s, ApplyShutdown(s, k, late));
  }

  lemma OneTaskKeepsManaged(limits: Limits, s: State, e: Event)
    requires Managed(s) && Enabled(limits, s, e) && OfOneTask(e)
    ensures Managed(Apply(limits, s, e))
  {
    var s' := Apply(limits, s, e);
    OneTaskFrame(limits, s, e);
    OneTaskKeepsDispatchings(limits, s, e);
    if e.OwnerNotifies? {
      SignalsKeepManaged(s, s');
    } else {
      OneTaskLeavesManagers(limits, s, e);
      FrameKeepsManaged(s, s');
    }
  }

  lemma OneTaskKeepsDispatchings(limits: Limits, s: State, e: Event)
    requires Enabled(limits, s, e) && OfOneTask(e)
    ensures Dispatchings(Apply(limits, s, e).owners) == Dispatchings(s.owners)
  {
    if OfThread(e) {
      ThreadKeepsDispatchings(limits, s, e);
    } else {
      OwnerKeepsDispatchings(limits, s, e);
    }
  }

  lemma ThreadKeepsDispatchings(limits: Limits, s: State, e: Event)
    requires Enabled(limits, s, e) && OfOneTask(e) && OfThread(e)
    ensures Dispatchings(Apply(limits, s, e).owners) == Dispatchings(s.owners)
  {
    match e
    case TaskBegins(_) =>
    case TaskReportsStarted(_) =>
    case TaskResolves(_, _) =>
    case TaskPanics(_) =>
  }

  lemma OwnerKeepsDispatchings(limits: Limits, s: State, e: Event)
    requires Enabled(limits, s, e) && OfOneTask(e) && !OfThread(e)
    ensures Dispatchings(Apply(limits, s, e).owners) == Dispatchings(s.owners)
  {
  }

  lemma OneTaskLeavesManagers(limits: Limits, s: State, e: Event)
    requires Enabled(limits, s, e) && OfOneTask(e) && !e.OwnerNotifies?
    ensures var s' := Apply(limits, s, e);
            s'.managers == s.managers && s'.submitters == s.submitters && s'.managerStarted == s.managerStarted
  {
  }

  // ---- steps of the manager ----

  /** The manager moves on, still alive, with the same burden. */
  lemma MoveKeepsManaged(s: State, m: nat, pc: Manager)
    requires Managed(s) && m in s.managers && SameBurden(pc, s.managers[m])
    ensures Managed(s.(managers := s.managers[m := pc]))
  {
    var s' := s.(managers := s.managers[m := pc]);
    assert s'.managers.Keys == s.managers.Keys;
    assert forall b :: IsStarting(s', b) <==> IsStarting(s, b);
    assert forall b :: IsSubmitting(s, b) ==> IsSubmitting(s', b);
    assert forall id :: Carried(s, id) ==> Carried(s', id);
  }

  /** The manager clears the flag and is gone; it left nothing behind. */
  lemma DepartureKeepsManaged(s: State, m: nat)
    requires Managed(s) && m in s.managers && Carries(s.managers[m]).None?
    requires s.core.queue == [] && s.core.ready == []
    ensures Managed(s.(managerStarted := false, managers := s.managers - {m}))
  {
    var s' := s.(managerStarted := false, managers := s.managers - {m});
    assert forall n :: n in s.managers ==> n == m;
    assert s'.managers == map[];
    assert forall b :: IsStarting(s', b) <==> IsStarting(s, b);
    NothingCarried(s);
  }

  lemma NothingCarried(s: State)
    requires Handover(s) && forall m :: m in s.managers ==> Carries(s.managers[m]).None?
    ensures Dispatchings(s.owners) == {}
  {
    assert forall id :: id in Dispatchings(s.owners) ==> Carried(s, id);
  }

  lemma RecheckKeepsManaged(limits: Limits, s: State, m: nat, until: nat)
    requires Managed(s) && ManagerAt(s, m, Rechecking)
    ensures Managed(ApplyRecheck(limits, s, m, until))
  {
    if Drained(s.core) {
      DepartureKeepsManaged(s, m);
    } else if Dispatchable(limits, s.core) {
      MoveKeepsManaged(s, m, Top);
    } else {
      MoveKeepsManaged(s, m, Sleeping(until, false));
    }
  }

  lemma DispatchTaskKeepsManaged(s: State, m: nat, id: nat, ok: bool)
    requires Managed(s) && ManagerAt(s, m, SpawningTask(id))
    ensures PhaseIs(s, id, Dispatching) || id !in s.core.controls
    ensures Managed(ApplyDispatch(s, m, id, ok))
  {
    var s' := ApplyDispatch(s, m, id, ok);
    assert forall n :: n in s.managers ==> n == m;
    assert Carries(s.managers[m]) == Some(id);
    assert Dispatchings(s'.owners) == Dispatchings(s.owners) - {id};
    forall x | x in Dispatchings(s.owners)
      ensures x == id
    {
      assert Carried(s, x);
    }
    assert forall b :: IsStarting(s', b) <==> IsStarting(s, b);
    assert forall b :: IsSubmitting(s, b) ==> IsSubmitting(s', b);
  }

  lemma PromoteOneKeepsDispatchings(limits: Limits, s: State)
    requires Conserved(limits, s) && s.core.queue != []
    ensures Dispatchings(PromoteOneState(s).owners) == Dispatchings(s.owners)
  {
    assert TaskAt(s.core, s.owners, s.core.queue[0]);
  }

  lemma {:induction false} PromoteKeepsDispatchings(limits: Limits, s: State)
    requires Conserved(limits, s) && Fair(s)
    ensures Dispatchings(PromoteState(limits, s).owners) == Dispatchings(s.owners)
    decreases |s.core.queue|
  {
    if CanPromote(limits, s.core) {
      BehindIfFair(s);
      PromoteOneKeeps(limits, s);
      PromoteOneKeepsOrder(s);
      PromoteOneKeepsDispatchings(limits, s);
      PromoteKeepsDispatchings(limits, PromoteOneState(s));
    }
  }

  lemma DispatchAdds(s: State)
    requires Known(s.core) && Placed(s.core, s.owners)
    ensures var taken := PopReady(s.core).1;
            Dispatchings(DispatchState(s).owners) == Dispatchings(s.owners) + (if taken.Some? then {taken.value} else {})
  {
    if s.core.ready != [] {
      assert s.core.ready[0] in s.core.ready;
    }
  }

  lemma SweepKeepsDispatchings(limits: Limits, s: State)
    requires Conserved(limits, s)
    ensures Dispatchings(SweepState(s).owners) == Dispatchings(s.owners)
  {
    ClosingKeepsDispatchings(limits, s, Swept(s), Terminated, DeadlineFailure);
  }

  lemma PassTakes(limits: Limits, s: State)
    ensures Pass(limits, s.core, s.now).1 == PopReady(PromoteState(limits, SweepState(s)).core).1
  {
    PromoteMatches(limits, SweepState(s));
  }

  /** A pass leaves exactly the task it took from `ready` to be handed over. */
  lemma PassDispatches(limits: Limits, s: State, s1: State, s2: State)
    requires Conserved(limits, s) && Fair(s) && s1 == SweepState(s) && s2 == PromoteState(limits, s1)
    ensures Conserved(limits, s2)
    ensures var taken := PopReady(s2.core).1;
            Dispatchings(DispatchState(s2).owners) == Dispatchings(s.owners) + (if taken.Some? then {taken.value} else {})
  {
    SweepKeepsDispatchings(limits, s);
    SweepKeeps(limits, s);
    SweepKeepsOrder(s);
    PromoteKeepsDispatchings(limits, s1);
    PromoteKeepsOrder(limits, s1);
    DispatchAdds(s2);
  }

  lemma {:induction false} PromoteFrame(limits: Limits, s: State)
    ensures var s' := PromoteState(limits, s);
            s' == s.(core := s'.core, owners := s'.owners, admitted := s'.admitted)
            && s'.core.accepting == s.core.accepting && s'.core.nextId == s.core.nextId
    decreases |s.core.queue|
  {
    if CanPromote(limits, s.core) {
      PromoteFrame(limits, PromoteOneState(s));
    }
  }

  lemma PassFrame(limits: Limits, s: State)
    ensures var s' := PassState(limits, s);
            s' == s.(core := s'.core, owners := s'.owners, admitted := s'.admitted, dispatched := s'.dispatched)
            && s'.core.accepting == s.core.accepting && s'.core.nextId == s.core.nextId
  {
    PromoteFrame(limits, SweepState(s));
  }

  /** The end of a pass, in terms of what the pass did to the tasks. */
  lemma PassEndsManaged(s: State, s1: State, s': State, m: nat, closing: set<nat>, taken: Option<nat>)
    requires Managed(s) && ManagerAt(s, m, Top)
    requires s1.submitters == s.submitters && s1.managerStarted == s.managerStarted
    requires s1.core.accepting == s.core.accepting
    requires Dispatchings(s1.owners) == Dispatchings(s.owners) + (if taken.Some? then {taken.value} else {})
    requires taken.Some? ==> s1.core.active != {}
    requires s' == s1.(managers := s.managers[m := Draining(closing, PassNext(s1, taken))])
    ensures Managed(s')
  {
    assert forall n :: n in s.managers ==> n == m;
    NothingCarried(s);
    assert s'.managers.Keys == s.managers.Keys;
    assert Carries(s'.managers[m]) == taken;
    assert forall b :: IsStarting(s', b) <==> IsStarting(s, b);
  }

  lemma PassKeepsManaged(limits: Limits, s: State, m: nat)
    requires Conserved(limits, s) && Fair(s) && Managed(s) && ManagerAt(s, m, Top)
    ensures Managed(ApplyPass(limits, s, m))
  {
    var s2 := PromoteState(limits, SweepState(s));
    var s1 := PassState(limits, s);
    var taken := PopReady(s2.core).1;
    PassFrame(limits, s);
    PassTakes(limits, s);
    PassDispatches(limits, s, SweepState(s), s2);
    if taken.Some? {
      assert taken.value in s2.core.ready;
      assert TaskAt(s2.core, s2.owners, taken.value);
    }
    PassEndsManaged(s, s1, ApplyPass(limits, s, m), m, Swept(s), taken);
  }

  lemma DrainedKeepsManaged(s: State, m: nat)
    requires Managed(s) && m in s.managers && s.managers[m].Draining?
    ensures Managed(s.(managers := s.managers[m := Resume(s.managers[m].next)]))
  {
    MoveKeepsManaged(s, m, Resume(s.managers[m].next));
  }

  lemma ExitKeepsManaged(s: State, m: nat)
    requires Managed(s) && Closed(s.core) && ManagerAt(s, m, Exiting)
    ensures Managed(s.(managerStarted := false, managers := s.managers - {m}))
  {
    DepartureKeepsManaged(s, m);
  }
}
