/**
  What the three counts of a shutdown report are about: across any number of
  concurrent calls they cover pairwise disjoint sets of tasks.
 */
module ShutdownCounts {
  import opened Wrappers
  import opened Sequences
  import opened Tasks
  import opened Admission
  import opened Scheduling
  import opened Conservation
  import opened Fifo

  predicate Reasoned(c: Core, id: nat) {
    id in c.controls && c.controls[id].reason.Some?
  }

  predicate ByShutdown(c: Core, id: nat) {
    id in c.controls && c.controls[id].reason == Some(Shutdown)
  }

  predicate CallOk(s: State, call: ShutdownCall) {
    && call.report == ShutdownReport(|call.queued|, |call.accepted|, |call.requested|)
    && (forall id :: id in call.queued ==> id in s.core.controls && id !in s.core.queue && id !in s.admitted)
    && (forall id :: id in call.accepted ==> id in s.admitted && ByShutdown(s.core, id))
    && (forall id :: id in call.requested ==> id in s.admitted && ByShutdown(s.core, id))
    && (call.pc.Requesting? ==> forall id :: id in call.pc.todo ==> id in s.admitted)
    && (call.pc.Waiting? || call.pc.Collecting? ==> call.requested == {})
  }

  predicate Apart(a: ShutdownCall, b: ShutdownCall) {
    a.queued !! b.queued && a.accepted !! b.accepted && a.requested !! b.requested
  }

  predicate Counted(s: State) {
    && (forall id :: id in s.core.active ==> id in s.admitted)
    && (forall k :: k in s.shutdowns ==> CallOk(s, s.shutdowns[k]))
    && (forall k, l :: k in s.shutdowns && l in s.shutdowns && k != l ==> Apart(s.shutdowns[k], s.shutdowns[l]))
    && (forall k, l :: k in s.shutdowns && l in s.shutdowns ==> s.shutdowns[k].accepted !! s.shutdowns[l].requested)
  }

  /** Steps outside shutdown: reasons stay, and what is admitted comes from the queue or is new. */
  ghost predicate Later(s: State, s': State) {
    && (forall id :: id in s.core.controls ==> id in s'.core.controls)
    && (forall id :: ByShutdown(s.core, id) ==> ByShutdown(s'.core, id))
    && (forall id :: id in s.admitted ==> id in s'.admitted)
    && (forall id :: id in s'.admitted ==> id in s.admitted || id in s.core.queue || id !in s.core.controls)
    && (forall id :: id in s'.core.queue ==> id in s.core.queue || id !in s.core.controls)
    && (forall id :: id in s'.core.active ==> id in s.core.active || id in s'.admitted)
  }

  lemma LaterKeepsCounts(s: State, s': State)
    requires Counted(s) && Later(s, s') && s'.shutdowns == s.shutdowns
    ensures Counted(s')
  {
    forall k | k in s'.shutdowns
      ensures CallOk(s', s'.shutdowns[k])
    {
      assert CallOk(s, s.shutdowns[k]);
    }
  }

  lemma LaterComposes(s: State, s1: State, s2: State)
    requires Later(s, s1) && Later(s1, s2)
    ensures Later(s, s2)
  {
  }

  lemma SubmittedIsLater(s: State, s': State, a: nat, direct: bool, control: Control)
    requires Known(s.core) && NewTask(s, s', a, direct, control)
    ensures Later(s, s')
  {
  }

  lemma SweepIsLater(s: State)
    ensures Later(s, SweepState(s))
  {
    KeptMembers(s.core.queue, s.core.controls, s.now);
  }

  lemma PromoteOneIsLater(s: State)
    requires s.core.queue != []
    ensures Later(s, PromoteOneState(s))
  {
    assert s.core.queue == [s.core.queue[0]] + s.core.queue[1..];
  }

  lemma {:induction false} PromoteIsLater(limits: Limits, s: State)
    ensures Later(s, PromoteState(limits, s))
    decreases |s.core.queue|
  {
    if CanPromote(limits, s.core) {
      var s1 := PromoteOneState(s);
      PromoteOneIsLater(s);
      PromoteIsLater(limits, s1);
      LaterComposes(s, s1, PromoteState(limits, s));
    }
  }

  lemma DispatchIsLater(s: State)
    ensures Later(s, DispatchState(s))
  {
  }

  lemma PassIsLater(limits: Limits, s: State)
    ensures Later(s, PassState(limits, s))
  {
    var s1 := SweepState(s);
    var s2 := PromoteState(limits, s1);
    SweepIsLater(s);
    PromoteIsLater(limits, s1);
    LaterComposes(s, s1, s2);
    DispatchIsLater(s2);
    LaterComposes(s, s2, DispatchState(s2));
  }

  lemma CancelIsLater(s: State, id: nat, reason: CancelReason)
    requires Increasing(s.core.queue) && HasPhase(s, id)
    ensures Later(s, ApplyCancel(s, id, reason))
  {
    WithoutMembers(s.core.queue, id);
  }

  /** Replacing one call by another that is as well kept. */
  lemma SetCallKeepsCounts(s: State, s': State, k: nat)
    requires Counted(s) && k in s'.shutdowns
    requires s'.shutdowns == s.shutdowns[k := s'.shutdowns[k]]
    requires Later(s, s')
    requires CallOk(s', s'.shutdowns[k])
    requires forall l :: l in s.shutdowns && l != k ==> Apart(s'.shutdowns[k], s.shutdowns[l])
    requires s'.shutdowns[k].accepted !! s'.shutdowns[k].requested
    requires forall l :: l in s.shutdowns && l != k ==>
               s'.shutdowns[k].accepted !! s.shutdowns[l].requested &&
               s.shutdowns[l].accepted !! s'.shutdowns[k].requested
    ensures Counted(s')
  {
    OtherCallsStayOk(s, s', k);
    CallsStayApart(s.shutdowns, s'.shutdowns, k);
  }

  lemma OtherCallsStayOk(s: State, s': State, k: nat)
    requires Counted(s) && Later(s, s') && k in s'.shutdowns
    requires s'.shutdowns == s.shutdowns[k := s'.shutdowns[k]] && CallOk(s', s'.shutdowns[k])
    ensures forall l :: l in s'.shutdowns ==> CallOk(s', s'.shutdowns[l])
    ensures forall id :: id in s'.core.active ==> id in s'.admitted
  {
    forall l | l in s'.shutdowns
      ensures CallOk(s', s'.shutdowns[l])
    {
      assert l != k ==> CallOk(s, s.shutdowns[l]);
    }
  }

  lemma CallsStayApart(m: map<nat, ShutdownCall>, m': map<nat, ShutdownCall>, k: nat)
    requires k in m' && m' == m[k := m'[k]]
    requires forall l, n :: l in m && n in m && l != n ==> Apart(m[l], m[n])
    requires forall l, n :: l in m && n in m ==> m[l].accepted !! m[n].requested
    requires forall l :: l in m && l != k ==> Apart(m'[k], m[l])
    requires m'[k].accepted !! m'[k].requested
    requires forall l :: l in m && l != k ==> m'[k].accepted !! m[l].requested && m[l].accepted !! m'[k].requested
    ensures forall l, n :: l in m' && n in m' && l != n ==> Apart(m'[l], m'[n])
    ensures forall l, n :: l in m' && n in m' ==> m'[l].accepted !! m'[n].requested
  {
    forall l, n | l in m' && n in m'
      ensures l != n ==> Apart(m'[l], m'[n])
      ensures m'[l].accepted !! m'[n].requested
    {
      if l != k && n != k {
        assert l != n ==> Apart(m[l], m[n]);
      } else if l == k && n != k {
        assert Apart(m'[k], m[n]);
      } else if l != k {
        assert Apart(m'[k], m[l]);
      }
    }
  }

  /** Tasks without a cancel reason are in no call's accepted or requested set. */
  lemma UnreasonedAreUncounted(s: State, ids: set<nat>)
    requires Counted(s)
    requires forall id :: id in ids ==> !Reasoned(s.core, id)
    ensures forall k :: k in s.shutdowns ==> ids !! s.shutdowns[k].accepted && ids !! s.shutdowns[k].requested
  {
    forall k | k in s.shutdowns
      ensures ids !! s.shutdowns[k].accepted && ids !! s.shutdowns[k].requested
    {
      assert CallOk(s, s.shutdowns[k]);
    }
  }

  lemma QueuedAreUncounted(s: State)
    requires Counted(s)
    ensures forall k :: k in s.shutdowns ==> Elems(s.core.queue) !! s.shutdowns[k].queued
  {
    forall k | k in s.shutdowns
      ensures Elems(s.core.queue) !! s.shutdowns[k].queued
    {
      assert CallOk(s, s.shutdowns[k]);
    }
  }

  lemma MetAreAdmitted(limits: Limits, s: State, late: set<nat>)
    requires Conserved(limits, s) && Fair(s) && Counted(s) && LateStarts(s, late)
    ensures Elems(s.core.ready) !! Met(s.core, late)
    ensures forall id :: id in Elems(s.core.ready) + Met(s.core, late) ==>
              id in s.admitted && !Reasoned(s.core, id) && id in s.core.controls && !s.core.controls[id].lifecycle.Terminal()
  {
    forall id | id in Elems(s.core.ready) + Met(s.core, late)
      ensures id in s.admitted && !Reasoned(s.core, id) && id in s.core.controls && !s.core.controls[id].lifecycle.Terminal()
      ensures id in Elems(s.core.ready) ==> id !in Met(s.core, late)
    {
      assert TaskAt(s.core, s.owners, id);
    }
  }

  lemma ShutdownIsLater(s: State, k: nat, late: set<nat>)
    ensures Later(s, ApplyShutdown(s, k, late))
  {
  }

  lemma ShutdownReasons(limits: Limits, s: State, k: nat, late: set<nat>)
    requires Conserved(limits, s) && Fair(s) && Counted(s) && LateStarts(s, late)
    ensures forall id :: id in Elems(s.core.ready) + Met(s.core, late) ==> ByShutdown(ApplyShutdown(s, k, late).core, id)
  {
    MetAreAdmitted(limits, s, late);
  }

  lemma SetsCount(s: State, late: set<nat>)
    requires Ordered(s.core) && Elems(s.core.ready) !! Met(s.core, late)
    ensures |Elems(s.core.queue)| == |s.core.queue|
    ensures |Elems(s.core.ready) + Met(s.core, late)| == |s.core.ready| + |Met(s.core, late)|
  {
    ElemsCount(s.core.queue);
    ElemsCount(s.core.ready);
  }

  lemma NewCallOk(s: State, s': State, met: set<nat>)
    requires Known(s.core) && Fair(s)
    requires |Elems(s.core.queue)| == |s.core.queue| && |Elems(s.core.ready) + met| == |s.core.ready| + |met|
    requires forall id :: id in Elems(s.core.ready) + met ==> id in s.admitted && ByShutdown(s'.core, id)
    requires s'.core.queue == [] && s'.admitted == s.admitted && s'.core.controls.Keys == s.core.controls.Keys
    ensures CallOk(s', NewCall(s.core, met))
  {
  }

  lemma ShutdownKeepsCounts(limits: Limits, s: State, k: nat, late: set<nat>)
    requires Conserved(limits, s) && Fair(s) && Counted(s) && k !in s.shutdowns && LateStarts(s, late)
    ensures Counted(ApplyShutdown(s, k, late))
  {
    var met := Met(s.core, late);
    var s' := ApplyShutdown(s, k, late);
    MetAreAdmitted(limits, s, late);
    ShutdownReasons(limits, s, k, late);
    SetsCount(s, late);
    NewCallOk(s, s', met);
    UnreasonedAreUncounted(s, Elems(s.core.ready) + met);
    QueuedAreUncounted(s);
    ShutdownIsLater(s, k, late);
    AddCallKeepsCounts(s, s', k, met);
  }

  lemma AddCallKeepsCounts(s: State, s': State, k: nat, met: set<nat>)
    requires Counted(s) && k !in s.shutdowns
    requires s'.shutdowns == s.shutdowns[k := NewCall(s.core, met)]
    requires Later(s, s') && CallOk(s', NewCall(s.core, met))
    requires forall l :: l in s.shutdowns ==> Elems(s.core.queue) !! s.shutdowns[l].queued
    requires forall l :: l in s.shutdowns ==>
               Elems(s.core.ready) + met !! s.shutdowns[l].accepted && Elems(s.core.ready) + met !! s.shutdowns[l].requested
    ensures Counted(s')
  {
    SetCallKeepsCounts(s, s', k);
  }

  lemma RequestIsLater(s: State, k: nat, id: nat)
    requires Increasing(s.core.queue)
    requires k in s.shutdowns && s.shutdowns[k].pc.Requesting? && HasPhase(s, id)
    ensures Later(s, ApplyShutdownRequest(s, k, id))
  {
    CancelIsLater(s, id, Shutdown);
  }

  lemma RequestCallOk(s: State, s': State, k: nat, id: nat)
    requires Counted(s) && Later(s, s')
    requires k in s.shutdowns && s.shutdowns[k].pc.Requesting? && id in s.shutdowns[k].pc.todo
    requires k in s'.shutdowns && (forall x :: x in s'.core.queue ==> x in s.core.queue) && s'.admitted == s.admitted
    requires var call := s.shutdowns[k];
             s'.shutdowns[k] == call.(
               pc := Requesting(call.pc.todo - {id}),
               report := call.report.(activeRequested := call.report.activeRequested + 1),
               requested := call.requested + {id})
    requires id !in s.shutdowns[k].requested && ByShutdown(s'.core, id)
    ensures CallOk(s', s'.shutdowns[k])
  {
    assert CallOk(s, s.shutdowns[k]);
  }

  /** A request that is granted is counted once: the task had no reason before. */
  lemma GrantKeepsCounts(s: State, s': State, k: nat, id: nat)
    requires Counted(s) && Later(s, s') && !Reasoned(s.core, id) && ByShutdown(s'.core, id)
    requires k in s.shutdowns && s.shutdowns[k].pc.Requesting? && id in s.shutdowns[k].pc.todo
    requires (forall x :: x in s'.core.queue ==> x in s.core.queue) && s'.admitted == s.admitted
    requires var call := s.shutdowns[k];
             s'.shutdowns == s.shutdowns[k := call.(
               pc := Requesting(call.pc.todo - {id}),
               report := call.report.(activeRequested := call.report.activeRequested + 1),
               requested := call.requested + {id})]
    ensures Counted(s')
  {
    UnreasonedAreUncounted(s, {id});
    assert forall l :: l in s.shutdowns ==> id !in s.shutdowns[l].requested && id !in s.shutdowns[l].accepted by {
      assert id in {id};
    }
    RequestCallOk(s, s', k, id);
    SetCallKeepsCounts(s, s', k);
  }

  lemma RequestKeepsCounts(s: State, k: nat, id: nat)
    requires Increasing(s.core.queue) && Counted(s)
    requires k in s.shutdowns && s.shutdowns[k].pc.Requesting? && id in s.shutdowns[k].pc.todo && HasPhase(s, id)
    ensures Counted(ApplyShutdownRequest(s, k, id))
  {
    if Cancel(s.core, id, Shutdown).outcome.Requested? {
      GrantedRequest(s, ApplyShutdownRequest(s, k, id), k, id);
    } else {
      assert CallOk(s, s.shutdowns[k]);
      MoveKeepsCounts(s, k, Requesting(s.shutdowns[k].pc.todo - {id}));
      RefusedRequest(s, k, id);
    }
  }

  lemma RequestShape(s: State, k: nat, id: nat)
    requires k in s.shutdowns && s.shutdowns[k].pc.Requesting? && HasPhase(s, id)
    requires Cancel(s.core, id, Shutdown).outcome.Requested?
    ensures var s' := ApplyShutdownRequest(s, k, id); var call := s.shutdowns[k];
            && s'.core == Cancel(s.core, id, Shutdown).core && s'.admitted == s.admitted
            && !Reasoned(s.core, id) && ByShutdown(s'.core, id)
            && s'.shutdowns == s.shutdowns[k := call.(
                 pc := Requesting(call.pc.todo - {id}),
                 report := call.report.(activeRequested := call.report.activeRequested + 1),
                 requested := call.requested + {id})]
  {
  }

  lemma GrantedRequest(s: State, s': State, k: nat, id: nat)
    requires Increasing(s.core.queue) && Counted(s)
    requires k in s.shutdowns && s.shutdowns[k].pc.Requesting? && id in s.shutdowns[k].pc.todo && HasPhase(s, id)
    requires Cancel(s.core, id, Shutdown).outcome.Requested?
    requires s' == ApplyShutdownRequest(s, k, id)
    ensures Counted(s')
  {
    RequestShape(s, k, id);
    RequestIsLater(s, k, id);
    WithoutMembers(s.core.queue, id);
    GrantKeepsCounts(s, s', k, id);
  }

  lemma RefusedRequest(s: State, k: nat, id: nat)
    requires k in s.shutdowns && s.shutdowns[k].pc.Requesting? && HasPhase(s, id)
    requires !Cancel(s.core, id, Shutdown).outcome.Requested?
    requires Counted(SetCall(s, k, s.shutdowns[k].(pc := Requesting(s.shutdowns[k].pc.todo - {id}))))
    requires Increasing(s.core.queue)
    ensures Counted(ApplyShutdownRequest(s, k, id))
  {
    var s1 := SetCall(s, k, s.shutdowns[k].(pc := Requesting(s.shutdowns[k].pc.todo - {id})));
    CancelIsLater(s1, id, Shutdown);
    LaterKeepsCounts(s1, ApplyCancel(s1, id, Shutdown));
  }

  lemma MoveKeepsCounts(s: State, k: nat, pc: ShutdownPc)
    requires Counted(s) && k in s.shutdowns
    requires pc.Requesting? ==> forall id :: id in pc.todo ==> id in s.admitted
    requires pc.Waiting? || pc.Collecting? ==> s.shutdowns[k].requested == {}
    ensures Counted(SetCall(s, k, s.shutdowns[k].(pc := pc)))
  {
    assert CallOk(s, s.shutdowns[k]);
    SetCallKeepsCounts(s, SetCall(s, k, s.shutdowns[k].(pc := pc)), k);
  }
}
