/**
  No lost wake-up.  A manager asleep on the condition variable, with no notification
  delivered yet, either has nothing to do before its wake-up time or some thread is
  still about to notify it.
 */
module Wakeups {
  import opened Wrappers
  import opened Sequences
  import opened Tasks
  import opened Admission
  import opened Scheduling
  import opened Conservation
  import opened Managers

  predicate IsNotifying(s: State, a: nat) {
    a in s.submitters && s.submitters[a].Notifying?
  }

  predicate IsWaking(s: State, id: nat) {
    id in s.owners && s.owners[id].phase.Waking?
  }

  /** Some submitter or some released permit has yet to notify. */
  ghost predicate Pending(s: State) {
    (exists a :: IsNotifying(s, a)) || (exists id :: IsWaking(s, id))
  }

  /** A task that has not passed through the manager's hands. */
  predicate Fresh(s: State, id: nat) {
    && HasPhase(s, id)
    && var o := s.owners[id];
       o.phase.InQueue? || o.phase.InReady? || (o.phase.Closing? && !s.core.controls[id].lifecycle.Started?)
  }

  predicate Early(s: State, id: nat, until: nat) {
    && Enforced(s.core, id)
    && s.core.controls[id].deadline.Some?
    && s.core.controls[id].deadline.value < until
  }

  ghost predicate MaySleep(limits: Limits, s: State, until: nat) {
    && (Dispatchable(limits, s.core) ==> Pending(s))
    && (forall id :: Early(s, id, until) ==> Pending(s) && Fresh(s, id))
  }

  predicate Dozing(s: State, m: nat) {
    m in s.managers && s.managers[m].Sleeping? && !s.managers[m].signalled
  }

  ghost predicate Awake(limits: Limits, s: State) {
    forall m :: Dozing(s, m) ==> MaySleep(limits, s, s.managers[m].until)
  }

  predicate ShutdownsClosed(s: State) {
    forall k :: k in s.shutdowns ==> !s.core.accepting
  }

  // ---- steps seen by a sleeping manager ----

  /** Anything that makes new work or an earlier deadline leaves a notification pending. */
  lemma StepKeepsAwake(limits: Limits, s: State, s': State)
    requires Awake(limits, s)
    requires forall m :: Dozing(s', m) ==> Dozing(s, m) && s'.managers[m].until == s.managers[m].until
    requires Pending(s) ==> Pending(s')
    requires Dispatchable(limits, s'.core) ==> Dispatchable(limits, s.core) || Pending(s')
    requires forall id :: Enforced(s'.core, id) ==>
               || (Enforced(s.core, id) && s'.core.controls[id].deadline == s.core.controls[id].deadline
                   && (Fresh(s, id) ==> Fresh(s', id)))
               || (Pending(s') && Fresh(s', id))
    ensures Awake(limits, s')
  {
    forall m | Dozing(s', m)
      ensures MaySleep(limits, s', s'.managers[m].until)
    {
      var until := s.managers[m].until;
      assert MaySleep(limits, s, until);
      forall id | Early(s', id, until)
        ensures Pending(s') && Fresh(s', id)
      {
        assert Enforced(s.core, id) && s'.core.controls[id].deadline == s.core.controls[id].deadline ==> Early(s, id, until);
      }
    }
  }

  lemma NobodyDozes(limits: Limits, s: State)
    requires forall m :: m in s.managers ==> !Dozing(s, m)
    ensures Awake(limits, s)
  {
  }

  lemma SubmittedKeepsAwake(limits: Limits, s: State, s': State, a: nat, direct: bool, control: Control)
    requires Conserved(limits, s) && Awake(limits, s) && NewTask(s, s', a, direct, control)
    ensures Awake(limits, s')
  {
    var n := s.core.nextId;
    assert IsNotifying(s', a);
    forall id | Enforced(s'.core, id)
      ensures Fresh(s', id) ||
              (Enforced(s.core, id) && s'.core.controls[id].deadline == s.core.controls[id].deadline && !Fresh(s, id))
    {
      if id != n {
        assert TaskAt(s.core, s.owners, id);
        assert id in s'.core.queue <==> id in s.core.queue;
        assert id in s'.core.ready <==> id in s.core.ready;
      }
    }
    StepKeepsAwake(limits, s, s');
  }

  /** A wake-up taken by a shutdown caller costs nothing: by then no work is left to hand out. */
  lemma StolenWakeup(limits: Limits, s: State, s': State)
    requires Conserved(limits, s) && Awake(limits, s)
    requires !s.core.accepting
    requires s'.core == s.core && s'.owners == s.owners && s'.managers == s.managers
    ensures Awake(limits, s')
  {
    forall m | Dozing(s', m)
      ensures MaySleep(limits, s', s'.managers[m].until)
    {
      var until := s.managers[m].until;
      assert Dozing(s, m) && MaySleep(limits, s, until);
      forall id
        ensures !Early(s', id, until)
      {
        assert Early(s', id, until) ==> Early(s, id, until) && Fresh(s, id);
        assert id in s.core.controls ==> TaskAt(s.core, s.owners, id);
      }
    }
  }

  lemma NotifyKeepsAwake(limits: Limits, s: State, a: nat, woken: Option<nat>)
    requires Conserved(limits, s) && Managed(s) && Awake(limits, s) && ShutdownsClosed(s)
    requires Enabled(limits, s, SubmitNotify(a, woken))
    ensures Awake(limits, ApplyNotifyOne(s, a, woken))
  {
    var s' := ApplyNotifyOne(s, a, woken);
    if woken.Some? {
      assert forall m :: m in s.managers ==> m == woken.value;
      NobodyDozes(limits, s');
    } else if exists m :: Dozing(s, m) {
      StolenWakeup(limits, s, s');
    } else {
      assert forall m :: Dozing(s', m) ==> Dozing(s, m);
    }
  }

  lemma RecheckKeepsAwake(limits: Limits, s: State, m: nat, until: nat)
    requires Managed(s) && ManagerAt(s, m, Rechecking) && SleepsUntil(s, until)
    ensures Awake(limits, ApplyRecheck(limits, s, m, until))
  {
    var s' := ApplyRecheck(limits, s, m, until);
    assert forall n :: n in s.managers ==> n == m;
    if !Drained(s.core) && !Dispatchable(limits, s.core) {
      var u: Option<nat> :| IsNextDeadline(s.core, u) && until == (if u.Some? then u.value else s.now + 100);
      forall id
        ensures !Early(s', id, until)
      {
        assert Early(s', id, until) ==> Enforced(s.core, id);
      }
    }
  }

  /** With one manager, and that one awake, nobody dozes. */
  lemma ManagerStepKeepsAwake(limits: Limits, s: State, s': State, m: nat)
    requires Managed(s) && m in s.managers
    requires s'.managers.Keys <= s.managers.Keys
    requires !Dozing(s', m)
    ensures Awake(limits, s')
  {
    assert forall n :: n in s.managers ==> n == m;
    NobodyDozes(limits, s');
  }

  /** Closing waiting tasks: those that stay enforced stay fresh. */
  lemma DrainKeepsAwake(limits: Limits, s: State, s': State, target: Lifecycle, outcome: Outcome)
    requires Conserved(limits, s) && Awake(limits, s)
    requires s'.managers == s.managers
    requires forall a :: IsNotifying(s, a) ==> IsNotifying(s', a)
    requires s'.core.queue == [] && s'.core.ready == [] && s'.core.active == s.core.active
    requires s'.core.controls.Keys == s.core.controls.Keys
    requires s'.owners == CloseAll(s.owners, Elems(s.core.queue) + Elems(s.core.ready), target, outcome)
    requires forall x :: x in s.core.controls ==>
               s'.core.controls[x] == s.core.controls[x] ||
               s'.core.controls[x] == MarkCancelling(s.core.controls[x], Shutdown).0
    ensures Awake(limits, s')
  {
    forall id | IsWaking(s, id)
      ensures IsWaking(s', id)
    {
      assert TaskAt(s.core, s.owners, id);
    }
    forall id | Enforced(s'.core, id)
      ensures Enforced(s.core, id) && s'.core.controls[id].deadline == s.core.controls[id].deadline
      ensures Fresh(s, id) ==> Fresh(s', id)
    {
      assert TaskAt(s.core, s.owners, id);
    }
    StepKeepsAwake(limits, s, s');
  }

  lemma CancelKeepsAwake(limits: Limits, s: State, id: nat, reason: CancelReason)
    requires Conserved(limits, s) && Awake(limits, s) && HasPhase(s, id)
    ensures Awake(limits, ApplyCancel(s, id, reason))
  {
    var s' := ApplyCancel(s, id, reason);
    assert TaskAt(s.core, s.owners, id);
    if !s.core.controls[id].lifecycle.Terminal() {
      WithoutMembers(s.core.queue, id);
      WithoutMembers(s.core.ready, id);
      assert s.core.queue == [] ==> s'.core.queue == [];
      assert s.core.ready == [] ==> s'.core.ready == [];
      forall a | IsNotifying(s, a)
        ensures IsNotifying(s', a)
      {
      }
      forall x | IsWaking(s, x)
        ensures IsWaking(s', x)
      {
      }
      forall x | Enforced(s'.core, x)
        ensures x != id && Enforced(s.core, x) && s'.core.controls[x].deadline == s.core.controls[x].deadline
        ensures Fresh(s, x) ==> Fresh(s', x)
      {
      }
      StepKeepsAwake(limits, s, s');
    }
  }

  // ---- one task's own steps ----

  /** Everything but a released permit leaves a sleeping manager nothing new to see. */
  lemma TaskChangeKeepsAwake(limits: Limits, s: State, s': State, id: nat)
    requires Conserved(limits, s) && Awake(limits, s) && HasPhase(s, id) && HasPhase(s', id)
    requires s'.core == s.core.(controls := s.core.controls[id := s'.core.controls[id]])
    requires s' == s.(core := s'.core, owners := s.owners[id := s'.owners[id]])
    requires !s.owners[id].phase.Waking?
    requires s'.core.controls[id].deadline == s.core.controls[id].deadline
    requires s'.core.controls[id].lifecycle.DeadlineApplies() ==>
               s.core.controls[id].lifecycle.DeadlineApplies() && !Fresh(s, id)
    requires s.owners[id].phase != InQueue && s.owners[id].phase != InReady
    ensures Awake(limits, s')
  {
    assert TaskAt(s.core, s.owners, id);
    forall a | IsNotifying(s, a)
      ensures IsNotifying(s', a)
    {
    }
    forall x | IsWaking(s, x)
      ensures IsWaking(s', x)
    {
    }
    forall x | Enforced(s'.core, x)
      ensures Enforced(s.core, x) && s'.core.controls[x].deadline == s.core.controls[x].deadline
      ensures Fresh(s, x) ==> Fresh(s', x)
    {
    }
    StepKeepsAwake(limits, s, s');
  }

  lemma BeginKeepsAwake(limits: Limits, s: State, id: nat)
    requires Conserved(limits, s) && Awake(limits, s) && PhaseIs(s, id, OnThread)
    ensures Awake(limits, ApplyBegin(s, id))
  {
    assert TaskAt(s.core, s.owners, id);
    TaskChangeKeepsAwake(limits, s, ApplyBegin(s, id), id);
  }

  lemma ReportsStartedKeepsAwake(limits: Limits, s: State, id: nat)
    requires Conserved(limits, s) && Awake(limits, s) && PhaseIs(s, id, Running)
    ensures Awake(limits, SetTask(s, id, MarkStarted(s.core.controls[id]), s.owners[id]))
  {
    assert TaskAt(s.core, s.owners, id);
    TaskChangeKeepsAwake(limits, s, SetTask(s, id, MarkStarted(s.core.controls[id]), s.owners[id]), id);
  }

  lemma ResolveKeepsAwake(limits: Limits, s: State, id: nat, result: BackendResult)
    requires Conserved(limits, s) && Awake(limits, s) && PhaseIs(s, id, Running)
    ensures Awake(limits, ApplyResolve(s, id, result))
  {
    assert TaskAt(s.core, s.owners, id);
    ResolveChangesOneTask(s, id, result);
    TaskChangeKeepsAwake(limits, s, ApplyResolve(s, id, result), id);
  }

  lemma ResolveChangesOneTask(s: State, id: nat, result: BackendResult)
    requires PhaseIs(s, id, Running)
    ensures var s' := ApplyResolve(s, id, result);
            && HasPhase(s', id)
            && s'.core == s.core.(controls := s.core.controls[id := s'.core.controls[id]])
            && s' == s.(core := s'.core, owners := s.owners[id := s'.owners[id]])
            && s'.core.controls[id].deadline == s.core.controls[id].deadline
            && !s'.core.controls[id].lifecycle.DeadlineApplies()
  {
  }

  lemma OwnerChangeKeepsAwake(limits: Limits, s: State, s': State, id: nat)
    requires Conserved(limits, s) && Awake(limits, s) && HasPhase(s, id) && id in s'.owners
    requires s' == s.(owners := s.owners[id := s'.owners[id]])
    requires !s.owners[id].phase.Waking? && (Fresh(s, id) ==> Fresh(s', id))
    ensures Awake(limits, s')
  {
    forall a | IsNotifying(s, a)
      ensures IsNotifying(s', a)
    {
    }
    forall x | IsWaking(s, x)
      ensures IsWaking(s', x)
    {
    }
    forall x | Enforced(s'.core, x)
      ensures Fresh(s, x) ==> Fresh(s', x)
    {
    }
    StepKeepsAwake(limits, s, s');
  }

  lemma PanicKeepsAwake(limits: Limits, s: State, id: nat)
    requires Conserved(limits, s) && Awake(limits, s) && (PhaseIs(s, id, OnThread) || PhaseIs(s, id, Running))
    ensures Awake(limits, s.(owners := SetPhase(s.owners, id, Closing(Failed, InternalFailure))))
  {
    OwnerChangeKeepsAwake(limits, s, s.(owners := SetPhase(s.owners, id, Closing(Failed, InternalFailure))), id);
  }

  lemma PublishKeepsAwake(limits: Limits, s: State, id: nat)
    requires Conserved(limits, s) && Awake(limits, s) && HasPhase(s, id) && s.owners[id].phase.Released?
    ensures Awake(limits, ApplyPublish(s, id))
  {
    OwnerChangeKeepsAwake(limits, s, ApplyPublish(s, id), id);
  }

  lemma MarkTerminalKeepsAwake(limits: Limits, s: State, id: nat)
    requires Conserved(limits, s) && Awake(limits, s) && HasPhase(s, id) && s.owners[id].phase.Closing?
    ensures Awake(limits, ApplyMarkTerminal(s, id))
  {
    assert TaskAt(s.core, s.owners, id);
    TaskChangeKeepsAwake(limits, s, ApplyMarkTerminal(s, id), id);
  }

  /** A freed slot can make queued work dispatchable, and the permit's drop is about to say so. */
  lemma ReleaseKeepsAwake(limits: Limits, s: State, id: nat)
    requires Conserved(limits, s) && Awake(limits, s) && HasPhase(s, id)
    requires s.owners[id].phase.Marked? || s.owners[id].phase.Abandoned?
    ensures Awake(limits, ApplyRelease(s, id))
  {
    var s' := ApplyRelease(s, id);
    assert TaskAt(s.core, s.owners, id);
    forall a | IsNotifying(s, a)
      ensures IsNotifying(s', a)
    {
    }
    forall x | IsWaking(s, x)
      ensures IsWaking(s', x)
    {
    }
    if s.owners[id].permit.ActivePermit? {
      assert IsWaking(s', id);
    }
    forall x | Enforced(s'.core, x)
      ensures Enforced(s.core, x) && s'.core.controls[x].deadline == s.core.controls[x].deadline
      ensures Fresh(s, x) ==> Fresh(s', x)
    {
    }
    StepKeepsAwake(limits, s, s');
  }
}
