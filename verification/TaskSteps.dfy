/**
  What one event of the executor does to one task: when its backend is invoked, which
  cancel reason it gets, which lifecycle state it enters and which outcome is decided for it.

  Everything here is said of the task's own fields, the clock and the place it is in.
 */
module TaskSteps {
  import opened Wrappers
  import opened Sequences
  import opened Tasks
  import opened Admission
  import opened Scheduling
  import opened Conservation
  import opened Fifo
  import opened Managers
  import opened SchedulerInvariant

  // ---- what ought to happen ----

  predicate Past(t: Control, now: nat) {
    t.deadline.Some? && t.deadline.value <= now
  }

  predicate Waits(c: Core, id: nat) {
    id in c.queue || id in c.ready
  }

  /** A task whose deadline the manager enforces: waiting, or active and not yet cancelled or over. */
  predicate Watched(c: Core, id: nat)
    requires id in c.controls
  {
    Waits(c, id) || (id in c.active && c.controls[id].lifecycle in {AcceptedNotStarted, Started})
  }

  /** The task's thread gets to run its backend. */
  predicate Invokes(s: State, e: Event, id: nat)
    requires id in s.core.controls
  {
    var t := s.core.controls[id];
    e == TaskBegins(id) && !t.lifecycle.Terminal() && t.reason.None? && !Past(t, s.now)
  }

  /** The reason `e` asks the task to be cancelled for. */
  function ReasonAsked(s: State, e: Event, id: nat): Option<CancelReason>
    requires id in s.core.controls
  {
    var t, c := s.core.controls[id], s.core;
    match e
    case TaskBegins(x) => if x == id && Past(t, s.now) then Some(Deadline) else None
    case ManagerPass(_) => if Watched(c, id) && Past(t, s.now) then Some(Deadline) else None
    case CancelSection(x, why) => if x == id then Some(why) else None
    case ShutdownSection(_, late) =>
      if id in c.ready || (id in c.active && t.lifecycle.AcceptedNotStarted?) || id in late then Some(Shutdown) else None
    case ShutdownRequests(_, x) => if x == id then Some(Shutdown) else None
    case _ => None
  }

  /** The first reason stays, and a task that is over gets none. */
  function ReasonAfter(s: State, e: Event, id: nat): Option<CancelReason>
    requires id in s.core.controls
  {
    var t := s.core.controls[id];
    if t.reason.Some? || t.lifecycle.Terminal() then t.reason else ReasonAsked(s, e, id)
  }

  /** The outcome on its way to the result cell, or there already. */
  function Told(o: Owner): Option<Outcome> {
    match o.phase
    case Closing(_, outcome) => Some(outcome)
    case Marked(outcome) => Some(outcome)
    case Waking(outcome) => Some(outcome)
    case Released(outcome) => Some(outcome)
    case Done => o.result
    case _ => None
  }

  /** The outcome `e` decides for a task that has none yet. */
  function OutcomeOf(s: State, e: Event, id: nat): Option<Outcome>
    requires id in s.core.controls
  {
    var t, c := s.core.controls[id], s.core;
    match e
    case TaskBegins(x) =>
      if x == id && t.reason.Some? then Some(FailureOf(t.reason.value))
      else if x == id && Past(t, s.now) then Some(DeadlineFailure) else None
    case TaskResolves(x, result) => if x == id then Some(AnswerTo(t.reason, result)) else None
    case TaskPanics(x) => if x == id then Some(InternalFailure) else None
    case ManagerPass(_) => if Waits(c, id) && Past(t, s.now) then Some(DeadlineFailure) else None
    case DispatchTask(m, ok) => if !ok && ManagerAt(s, m, SpawningTask(id)) then Some(InternalFailure) else None
    case CancelSection(x, why) => if x == id && Waits(c, id) then Some(FailureOf(why)) else None
    case ShutdownSection(_, _) => if Waits(c, id) then Some(CancelledFailure) else None
    case ShutdownRequests(_, x) => if x == id && Waits(c, id) then Some(CancelledFailure) else None
    case FailPendingSection(_) => if Waits(c, id) then Some(InternalFailure) else None
    case _ => None
  }

  /** The state the task enters when nothing cancels it; `promoted` when it gets a slot. */
  function MovesTo(s: State, e: Event, id: nat, promoted: bool): Lifecycle
    requires HasPhase(s, id)
  {
    var t, phase := s.core.controls[id], s.owners[id].phase;
    match e
    case TaskBegins(x) => if x == id && t.reason.None? && !t.supervised then Started else t.lifecycle
    case TaskReportsStarted(x) =>
      if x == id && t.lifecycle.AcceptedNotStarted? && t.reason.None? then Started else t.lifecycle
    case TaskResolves(x, result) => if x == id then EndOf(AnswerTo(t.reason, result)) else t.lifecycle
    case OwnerMarksTerminal(x) => if x == id && phase.Closing? then phase.target else t.lifecycle
    case ManagerPass(_) => if promoted then AcceptedNotStarted else t.lifecycle
    case _ => t.lifecycle
  }

  function LifecycleAfter(s: State, e: Event, id: nat, promoted: bool): Lifecycle
    requires HasPhase(s, id)
  {
    var t := s.core.controls[id];
    if t.lifecycle.Terminal() then t.lifecycle
    else if t.reason.None? && ReasonAsked(s, e, id).Some? then Cancelling
    else MovesTo(s, e, id, promoted)
  }

  /** An owner about to end its task ends it in the state that goes with the outcome. */
  predicate Aims(o: Owner) {
    o.phase.Closing? ==> o.phase.target == EndOf(o.phase.outcome)
  }

  /** One event, one task: `promoted` when the event gave the task a slot. */
  ghost predicate TaskStep(s: State, e: Event, s': State, id: nat, promoted: bool)
    requires HasPhase(s, id)
  {
    && HasPhase(s', id)
    && s'.core.controls[id] ==
         s.core.controls[id].(lifecycle := LifecycleAfter(s, e, id, promoted), reason := ReasonAfter(s, e, id))
    && (s'.owners[id].invoked <==> s.owners[id].invoked || Invokes(s, e, id))
    && Told(s'.owners[id]) == (if Told(s.owners[id]).Some? then Told(s.owners[id]) else OutcomeOf(s, e, id))
    && (Aims(s.owners[id]) ==> Aims(s'.owners[id]))
  }

  // ---- events of one task ----

  lemma BeginStep(s: State, id: nat)
    requires PhaseIs(s, id, OnThread) && PhaseFits(s.core.controls[id], s.owners[id])
    ensures TaskStep(s, TaskBegins(id), ApplyBegin(s, id), id, false)
  {
  }

  lemma ReportStep(s: State, id: nat)
    requires PhaseIs(s, id, Running) && PhaseFits(s.core.controls[id], s.owners[id])
    ensures TaskStep(s, TaskReportsStarted(id), SetTask(s, id, MarkStarted(s.core.controls[id]), s.owners[id]), id, false)
  {
  }

  lemma ResolveStep(s: State, id: nat, result: BackendResult)
    requires PhaseIs(s, id, Running) && PhaseFits(s.core.controls[id], s.owners[id])
    ensures TaskStep(s, TaskResolves(id, result), ApplyResolve(s, id, result), id, false)
  {
  }

  lemma PanicStep(s: State, id: nat)
    requires PhaseIs(s, id, OnThread) || PhaseIs(s, id, Running)
    ensures TaskStep(s, TaskPanics(id), s.(owners := SetPhase(s.owners, id, Closing(Failed, InternalFailure))), id, false)
  {
  }

  lemma MarkStep(s: State, id: nat)
    requires HasPhase(s, id) && s.owners[id].phase.Closing? && !s.core.controls[id].lifecycle.Terminal()
    ensures TaskStep(s, OwnerMarksTerminal(id), ApplyMarkTerminal(s, id), id, false)
  {
  }

  lemma ReleaseStep(s: State, id: nat)
    requires HasPhase(s, id) && s.owners[id].phase.Marked?
    ensures TaskStep(s, OwnerReleases(id), ApplyRelease(s, id), id, false)
  {
  }

  lemma PublishStep(s: State, id: nat)
    requires HasPhase(s, id) && s.owners[id].phase.Released? && s.owners[id].result.None?
    ensures TaskStep(s, OwnerPublishes(id), ApplyPublish(s, id), id, false)
  {
  }

  /** An event that changes neither control block nor owner and asks nothing of the task. */
  lemma IdleStep(s: State, e: Event, s': State, id: nat)
    requires HasPhase(s, id) && HasPhase(s', id)
    requires s'.core.controls[id] == s.core.controls[id]
    requires s'.owners[id].invoked == s.owners[id].invoked && Told(s'.owners[id]) == Told(s.owners[id])
    requires s'.owners[id].phase.Closing? ==> s'.owners[id].phase == s.owners[id].phase
    requires ReasonAsked(s, e, id).None? && OutcomeOf(s, e, id).None? && !Invokes(s, e, id)
    requires MovesTo(s, e, id, false) == s.core.controls[id].lifecycle
    ensures TaskStep(s, e, s', id, false)
  {
  }

  lemma OthersStay(limits: Limits, s: State, e: Event, id: nat)
    requires Enabled(limits, s, e) && OfOneTask(e) && e.id != id && HasPhase(s, id)
    ensures var s' := Apply(limits, s, e);
            HasPhase(s', id) && s'.core.controls[id] == s.core.controls[id] && s'.owners[id] == s.owners[id]
  {
    if OfThread(e) {
      OthersStayByThread(limits, s, e, id);
    } else {
      OthersStayByOwner(limits, s, e, id);
    }
  }

  lemma OthersStayByThread(limits: Limits, s: State, e: Event, id: nat)
    requires Enabled(limits, s, e) && OfThread(e) && e.id != id && HasPhase(s, id)
    ensures var s' := Apply(limits, s, e);
            HasPhase(s', id) && s'.core.controls[id] == s.core.controls[id] && s'.owners[id] == s.owners[id]
  {
    match e
    case TaskBegins(_) =>
    case TaskReportsStarted(_) =>
    case TaskResolves(_, _) =>
    case TaskPanics(_) =>
  }

  lemma OthersStayByOwner(limits: Limits, s: State, e: Event, id: nat)
    requires Enabled(limits, s, e) && OfOneTask(e) && !OfThread(e) && e.id != id && HasPhase(s, id)
    ensures var s' := Apply(limits, s, e);
            HasPhase(s', id) && s'.core.controls[id] == s.core.controls[id] && s'.owners[id] == s.owners[id]
  {
    match e
    case OwnerMarksTerminal(_) =>
    case OwnerReleases(_) =>
    case OwnerNotifies(_) =>
    case OwnerPublishes(_) =>
  }

  lemma OneTaskStep(limits: Limits, s: State, e: Event, id: nat)
    requires Enabled(limits, s, e) && OfOneTask(e) && HasPhase(s, id) && TaskAt(s.core, s.owners, id)
    ensures TaskStep(s, e, Apply(limits, s, e), id, false)
  {
    if e.id != id {
      OthersStay(limits, s, e, id);
      OtherTaskStep(s, e, Apply(limits, s, e), id);
    } else if OfThread(e) {
      ThreadStep(limits, s, e);
    } else {
      OwnerStep(limits, s, e);
    }
  }

  lemma OtherTaskStep(s: State, e: Event, s': State, id: nat)
    requires OfOneTask(e) && e.id != id && HasPhase(s, id) && HasPhase(s', id)
    requires s'.core.controls[id] == s.core.controls[id] && s'.owners[id] == s.owners[id]
    ensures TaskStep(s, e, s', id, false)
  {
  }

  lemma ThreadStep(limits: Limits, s: State, e: Event)
    requires Enabled(limits, s, e) && OfThread(e) && HasPhase(s, e.id) && TaskAt(s.core, s.owners, e.id)
    ensures TaskStep(s, e, Apply(limits, s, e), e.id, false)
  {
    match e
    case TaskBegins(id) => BeginStep(s, id);
    case TaskReportsStarted(id) => ReportStep(s, id);
    case TaskResolves(id, result) => ResolveStep(s, id, result);
    case TaskPanics(id) => PanicStep(s, id);
  }

  lemma OwnerStep(limits: Limits, s: State, e: Event)
    requires Enabled(limits, s, e) && OfOneTask(e) && !OfThread(e) && HasPhase(s, e.id) && TaskAt(s.core, s.owners, e.id)
    ensures TaskStep(s, e, Apply(limits, s, e), e.id, false)
  {
    match e
    case OwnerMarksTerminal(id) => MarkStep(s, id);
    case OwnerReleases(id) => ReleaseStep(s, id);
    case OwnerNotifies(id) => IdleStep(s, e, Apply(limits, s, e), id);
    case OwnerPublishes(id) => PublishStep(s, id);
  }

  // ---- sections under the scheduler lock ----

  /** At most the task is marked for `asked`, and its owner closed with `outcome`. */
  predicate Marked(s: State, s': State, id: nat, asked: Option<CancelReason>, outcome: Option<Outcome>)
    requires HasPhase(s, id)
  {
    && HasPhase(s', id)
    && s'.core.controls[id] ==
         (if asked.Some? then MarkCancelling(s.core.controls[id], asked.value).0 else s.core.controls[id])
    && s'.owners[id] ==
         (if outcome.Some? then s.owners[id].(phase := Closing(EndOf(outcome.value), outcome.value)) else s.owners[id])
  }

  lemma MarkedControl(t: Control, asked: Option<CancelReason>)
    ensures (if asked.Some? then MarkCancelling(t, asked.value).0 else t) ==
      t.(reason := if t.reason.Some? || t.lifecycle.Terminal() then t.reason else asked,
         lifecycle := if !t.lifecycle.Terminal() && t.reason.None? && asked.Some? then Cancelling else t.lifecycle)
  {
  }

  /** An event that at most marks the task and has its owner closed. */
  lemma MarkingStep(s: State, e: Event, s': State, id: nat, asked: Option<CancelReason>, outcome: Option<Outcome>)
    requires HasPhase(s, id) && Marked(s, s', id, asked, outcome)
    requires asked == ReasonAsked(s, e, id) && outcome == OutcomeOf(s, e, id)
    requires outcome.Some? ==> Told(s.owners[id]).None?
    requires !OfOneTask(e) && MovesTo(s, e, id, false) == s.core.controls[id].lifecycle
    ensures TaskStep(s, e, s', id, false)
  {
    MarkedControl(s.core.controls[id], asked);
    assert LifecycleAfter(s, e, id, false) == s'.core.controls[id].lifecycle;
    assert ReasonAfter(s, e, id) == s'.core.controls[id].reason;
  }

  lemma WaitingIsUntold(s: State, id: nat)
    requires HasPhase(s, id) && TaskAt(s.core, s.owners, id)
    ensures Waits(s.core, id) ==>
              Told(s.owners[id]).None? && s.core.controls[id].reason.None? && !s.core.controls[id].lifecycle.Terminal()
  {
  }

  lemma CancelStep(s: State, x: nat, why: CancelReason, id: nat)
    requires HasPhase(s, x) && HasPhase(s, id) && TaskAt(s.core, s.owners, id)
    ensures TaskStep(s, CancelSection(x, why), ApplyCancel(s, x, why), id, false)
  {
    var e := CancelSection(x, why);
    WaitingIsUntold(s, id);
    CancelMarks(s, x, why, id);
    MarkingStep(s, e, ApplyCancel(s, x, why), id, ReasonAsked(s, e, id), OutcomeOf(s, e, id));
  }

  lemma CancelMarks(s: State, x: nat, why: CancelReason, id: nat)
    requires HasPhase(s, x) && HasPhase(s, id)
    requires Waits(s.core, id) ==> !s.core.controls[id].lifecycle.Terminal()
    ensures Marked(s, ApplyCancel(s, x, why), id, if x == id then Some(why) else None,
                   if x == id && Waits(s.core, id) then Some(FailureOf(why)) else None)
  {
  }

  lemma RequestStep(s: State, k: nat, x: nat, id: nat)
    requires HasPhase(s, x) && HasPhase(s, id) && TaskAt(s.core, s.owners, id)
    requires k in s.shutdowns && s.shutdowns[k].pc.Requesting?
    ensures TaskStep(s, ShutdownRequests(k, x), ApplyShutdownRequest(s, k, x), id, false)
  {
    RequestIsCancel(s, k, x);
    SameAsCancel(s, k, x, ApplyCancel(s, x, Shutdown), ApplyShutdownRequest(s, k, x), id);
    CancelStep(s, x, Shutdown, id);
  }

  lemma SameAsCancel(s: State, k: nat, x: nat, s1: State, s': State, id: nat)
    requires HasPhase(s, id) && s' == s1.(shutdowns := s'.shutdowns)
    ensures TaskStep(s, CancelSection(x, Shutdown), s1, id, false) ==> TaskStep(s, ShutdownRequests(k, x), s', id, false)
  {
  }

  lemma ShutdownStep(s: State, k: nat, late: set<nat>, id: nat)
    requires HasPhase(s, id) && TaskAt(s.core, s.owners, id)
    ensures TaskStep(s, ShutdownSection(k, late), ApplyShutdown(s, k, late), id, false)
  {
    var e := ShutdownSection(k, late);
    WaitingIsUntold(s, id);
    ShutdownMarks(s, k, late, id);
    MarkingStep(s, e, ApplyShutdown(s, k, late), id, ReasonAsked(s, e, id), OutcomeOf(s, e, id));
  }

  lemma ShutdownMarks(s: State, k: nat, late: set<nat>, id: nat)
    requires HasPhase(s, id)
    ensures var e := ShutdownSection(k, late);
            Marked(s, ApplyShutdown(s, k, late), id, ReasonAsked(s, e, id), OutcomeOf(s, e, id))
  {
    var marked := Elems(s.core.ready) + Unstarted(s.core) + late;
    assert id in marked <==> ReasonAsked(s, ShutdownSection(k, late), id).Some?;
  }

  lemma FailPendingStep(s: State, a: nat, id: nat)
    requires HasPhase(s, id) && TaskAt(s.core, s.owners, id)
    ensures TaskStep(s, FailPendingSection(a), ApplyFailPending(s, a), id, false)
  {
    var e := FailPendingSection(a);
    WaitingIsUntold(s, id);
    MarkingStep(s, e, ApplyFailPending(s, a), id, None, OutcomeOf(s, e, id));
  }

  lemma DispatchStep(s: State, m: nat, ok: bool, id: nat)
    requires HasPhase(s, id) && m in s.managers && s.managers[m].SpawningTask?
    requires PhaseIs(s, s.managers[m].id, Dispatching)
    ensures TaskStep(s, DispatchTask(m, ok), ApplyDispatch(s, m, s.managers[m].id, ok), id, false)
  {
    var e, s' := DispatchTask(m, ok), ApplyDispatch(s, m, s.managers[m].id, ok);
    if ok {
      IdleStep(s, e, s', id);
    } else {
      MarkingStep(s, e, s', id, None, OutcomeOf(s, e, id));
    }
  }

  lemma SweepStep(s: State, m: nat, id: nat)
    requires HasPhase(s, id) && TaskAt(s.core, s.owners, id)
    ensures TaskStep(s, ManagerPass(m), SweepState(s), id, false)
  {
    var e := ManagerPass(m);
    WaitingIsUntold(s, id);
    SweepMarks(s, m, id);
    MarkingStep(s, e, SweepState(s), id, ReasonAsked(s, e, id), OutcomeOf(s, e, id));
  }

  lemma SweepMarks(s: State, m: nat, id: nat)
    requires HasPhase(s, id)
    ensures Marked(s, SweepState(s), id, ReasonAsked(s, ManagerPass(m), id), OutcomeOf(s, ManagerPass(m), id))
  {
    assert id in Overdue(s.core, s.now) <==> ReasonAsked(s, ManagerPass(m), id).Some?;
  }

  // ---- the manager's pass ----

  /** Promotion and dispatch touch a task only to give it a slot. */
  predicate Handed(s: State, s': State, id: nat)
    requires HasPhase(s, id)
  {
    && HasPhase(s', id)
    && s'.core.controls[id] == (
         if id in s.core.queue && id !in s'.core.queue then s.core.controls[id].(lifecycle := AcceptedNotStarted)
         else s.core.controls[id])
    && s'.owners[id].invoked == s.owners[id].invoked && Told(s'.owners[id]) == Told(s.owners[id])
    && (s'.owners[id].phase.Closing? ==> s'.owners[id].phase == s.owners[id].phase)
    && (id in s'.core.queue ==> id in s.core.queue)
    && (id in s'.core.active <==> id in s.core.active || (id in s.core.queue && id !in s'.core.queue))
  }

  lemma PromoteOneHands(limits: Limits, s: State, id: nat)
    requires Conserved(limits, s) && s.core.queue != [] && HasPhase(s, id)
    ensures Handed(s, PromoteOneState(s), id)
  {
    var head := s.core.queue[0];
    IncreasingTail(s.core.queue);
    assert TaskAt(s.core, s.owners, head);
  }

  lemma {:induction false} PromoteHands(limits: Limits, s: State, id: nat)
    requires Conserved(limits, s) && Fair(s) && HasPhase(s, id)
    ensures Handed(s, PromoteState(limits, s), id)
    decreases |s.core.queue|
  {
    if CanPromote(limits, s.core) {
      PromoteOneHands(limits, s, id);
      BehindIfFair(s);
      PromoteOneKeeps(limits, s);
      PromoteOneKeepsOrder(s);
      PromoteHands(limits, PromoteOneState(s), id);
    }
  }

  lemma TakeHands(limits: Limits, s: State, id: nat)
    requires Conserved(limits, s) && HasPhase(s, id)
    ensures Handed(s, DispatchState(s), id)
  {
    if s.core.ready != [] {
      assert TaskAt(s.core, s.owners, s.core.ready[0]);
    }
  }

  lemma PassHands(limits: Limits, s: State, id: nat)
    requires Conserved(limits, s) && Fair(s) && HasPhase(s, id)
    ensures Handed(s, DispatchState(PromoteState(limits, s)), id)
  {
    var s1 := PromoteState(limits, s);
    PromoteHands(limits, s, id);
    PromoteKeepsOrder(limits, s);
    TakeHands(limits, s1, id);
    TakingLeavesQueue(s1);
  }

  lemma TakingLeavesQueue(s: State)
    ensures DispatchState(s).core.queue == s.core.queue && DispatchState(s).core.active == s.core.active
  {
  }

  /** A sweep, and then a slot for some that were not swept. */
  lemma SweptThenHanded(s: State, m: nat, s1: State, s': State, id: nat)
    requires HasPhase(s, id) && TaskAt(s.core, s.owners, id)
    requires TaskStep(s, ManagerPass(m), s1, id, false) && Handed(s1, s', id)
    requires s1.core.active == s.core.active && (id in s1.core.queue <==> id in s.core.queue && !Past(s.core.controls[id], s.now))
    ensures TaskStep(s, ManagerPass(m), s', id, id !in s.core.active && id in s'.core.active)
  {
  }

  lemma PassStep(limits: Limits, s: State, m: nat, id: nat)
    requires Conserved(limits, s) && Fair(s) && HasPhase(s, id)
    ensures var s' := ApplyPass(limits, s, m);
            TaskStep(s, ManagerPass(m), s', id, id !in s.core.active && id in s'.core.active)
  {
    var s1 := SweepState(s);
    assert TaskAt(s.core, s.owners, id);
    SweepStep(s, m, id);
    SweepKeeps(limits, s);
    SweepKeepsOrder(s);
    PassHands(limits, s1, id);
    KeptMembers(s.core.queue, s.core.controls, s.now);
    SweptThenHanded(s, m, s1, ApplyPass(limits, s, m), id);
  }

  // ---- every event ----

  lemma SubmitStep(limits: Limits, s: State, a: nat, deadline: Option<nat>, supervised: bool, id: nat)
    requires Known(s.core) && HasPhase(s, id)
    ensures TaskStep(s, SubmitSection(a, deadline, supervised), ApplySubmit(limits, s, a, deadline, supervised), id, false)
  {
    IdleStep(s, SubmitSection(a, deadline, supervised), ApplySubmit(limits, s, a, deadline, supervised), id);
  }

  lemma QuietStep(limits: Limits, s: State, e: Event, id: nat)
    requires Enabled(limits, s, e) && Quiet(e) && HasPhase(s, id)
    ensures TaskStep(s, e, Apply(limits, s, e), id, false)
  {
    QuietChangesNothing(limits, s, e);
    IdleStep(s, e, Apply(limits, s, e), id);
  }

  lemma SectionStep(limits: Limits, s: State, e: Event, id: nat)
    requires Inv(limits, s) && Enabled(limits, s, e) && !OfOneTask(e) && !Quiet(e) && !e.ManagerPass? && HasPhase(s, id)
    ensures TaskStep(s, e, Apply(limits, s, e), id, false)
  {
    assert TaskAt(s.core, s.owners, id);
    match e
    case SubmitSection(a, deadline, supervised) => SubmitStep(limits, s, a, deadline, supervised, id);
    case FailPendingSection(a) => FailPendingStep(s, a, id);
    case DispatchTask(m, ok) => HandoverStep(limits, s, m, ok, id);
    case CancelSection(x, why) => CancelStep(s, x, why, id);
    case ShutdownSection(k, late) => ShutdownStep(s, k, late, id);
    case ShutdownRequests(k, x) => RequestStep(s, k, x, id);
  }

  lemma HandoverStep(limits: Limits, s: State, m: nat, ok: bool, id: nat)
    requires Inv(limits, s) && HasPhase(s, id) && m in s.managers && s.managers[m].SpawningTask?
    ensures TaskStep(s, DispatchTask(m, ok), ApplyDispatch(s, m, s.managers[m].id, ok), id, false)
  {
    assert Carries(s.managers[m]) == Some(s.managers[m].id);
    DispatchStep(s, m, ok, id);
  }

  /** Whether a task gets a slot matters to the manager's pass alone. */
  lemma SlotMattersToThePass(s: State, e: Event, s': State, id: nat, promoted: bool)
    requires HasPhase(s, id) && !e.ManagerPass? && TaskStep(s, e, s', id, false)
    ensures TaskStep(s, e, s', id, promoted)
  {
  }

  /**
    Every event does to every task exactly what its own fields, the clock and its place
    ask for, and nothing else.
   */
  lemma EveryTaskSteps(limits: Limits, s: State, e: Event, id: nat)
    requires Inv(limits, s) && Enabled(limits, s, e) && id in s.core.controls
    ensures HasPhase(s, id)
    ensures var s' := Apply(limits, s, e);
            TaskStep(s, e, s', id, id !in s.core.active && id in s'.core.active)
  {
    assert TaskAt(s.core, s.owners, id);
    var s' := Apply(limits, s, e);
    if e.ManagerPass? {
      PassStep(limits, s, e.m, id);
    } else {
      if OfOneTask(e) {
        OneTaskStep(limits, s, e, id);
      } else if Quiet(e) {
        QuietStep(limits, s, e, id);
      } else {
        SectionStep(limits, s, e, id);
      }
      SlotMattersToThePass(s, e, s', id, id !in s.core.active && id in s'.core.active);
    }
  }
}
