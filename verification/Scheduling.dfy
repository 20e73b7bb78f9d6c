/**
  The executor as a step relation.

  Submitters, the manager thread, task threads, cancellers and shutdown callers
  interleave at the granularity of lock releases: every event below is one critical
  section (of the scheduler lock, a task lock or a result cell), one atomic-flag
  access, one thread start or one notification.  The unique owner of each task is
  tracked through `Phase`, its RAII permit through `Permit`.
 */
module Scheduling {
  import opened Wrappers
  import opened Sequences
  import opened Tasks
  import opened Admission

  datatype Permit = QueuePermit | ActivePermit | NoPermit

  /** Where the one owner of a task is, and how far its closing has come. */
  datatype Phase =
    | InQueue
    | InReady
    | Dispatching                                     // taken by the manager
    | OnThread                                        // task thread started, `begin_start` not yet reached
    | Running                                         // backend invoked
    | Closing(target: Lifecycle, outcome: Outcome)    // about to call `send_terminal`
    | Marked(outcome: Outcome)                        // terminal, permit still held
    | Waking(outcome: Outcome)                        // out of `active`, waiters not yet notified
    | Released(outcome: Outcome)                      // permit gone, result not yet published
    | Done                                            // result published
    | Abandoned                                       // found the task terminal already: nothing to publish
    | Forgotten                                       // abandoned, and the permit dropped
  {
    predicate Finished() {
      Done? || Forgotten?
    }
  }

  datatype Owner = Owner(phase: Phase, permit: Permit, invoked: bool, result: Option<Outcome>)

  datatype Submitter = Notifying | Ensuring | SpawningManager | Failing

  datatype After = Exit | Recheck | Spawn(id: nat) | Again

  datatype Manager =
    | Top
    | Draining(closing: set<nat>, next: After)
    | Rechecking
    | Sleeping(until: nat, signalled: bool)
    | SpawningTask(id: nat)
    | Exiting

  datatype ShutdownReport = ShutdownReport(queuedCancelled: nat, acceptedCancelled: nat, activeRequested: nat)

  datatype ShutdownPc = Waiting | Collecting | Requesting(todo: set<nat>) | Returned

  /** A call of `shutdown`; the three sets record which tasks its counts are about. */
  datatype ShutdownCall = ShutdownCall(
    pc: ShutdownPc,
    report: ShutdownReport,
    queued: set<nat>,
    accepted: set<nat>,
    requested: set<nat>)

  datatype State = State(
    core: Core,
    owners: map<nat, Owner>,
    managerStarted: bool,
    managers: map<nat, Manager>,
    submitters: map<nat, Submitter>,
    shutdowns: map<nat, ShutdownCall>,
    now: nat,
    admitted: seq<nat>,      // history: ids in the order they entered `active`
    dispatched: seq<nat>)    // history: ids in the order the manager took them from `ready`

  const InitialState := State(EmptyCore, map[], false, map[], map[], map[], 0, [], [])

  datatype Event =
    | Tick(time: nat)
    | SubmitSection(a: nat, deadline: Option<nat>, supervised: bool)
    | SubmitNotify(a: nat, woken: Option<nat>)
    | EnsureManager(a: nat)
    | SpawnManager(a: nat, m: nat)
    | SpawnManagerFails(a: nat)
    | FailPendingSection(a: nat)
    | ManagerPass(m: nat)
    | ManagerDrained(m: nat)
    | ManagerExit(m: nat)
    | ManagerRecheck(m: nat, until: nat)
    | ManagerWake(m: nat)
    | DispatchTask(m: nat, ok: bool)
    | TaskBegins(id: nat)
    | TaskReportsStarted(id: nat)
    | TaskResolves(id: nat, result: BackendResult)
    | TaskPanics(id: nat)
    | OwnerMarksTerminal(id: nat)
    | OwnerReleases(id: nat)
    | OwnerNotifies(id: nat)
    | OwnerPublishes(id: nat)
    | CancelSection(id: nat, reason: CancelReason)
    | NotifyAll
    | ShutdownSection(k: nat, late: set<nat>)
    | ShutdownIdle(k: nat)
    | ShutdownGraceOver(k: nat)
    | ShutdownCollects(k: nat)
    | ShutdownRequests(k: nat, id: nat)
    | ShutdownReturns(k: nat)

  // ---- owners ----

  function SetPhase(owners: map<nat, Owner>, id: nat, phase: Phase): map<nat, Owner> {
    if id in owners then owners[id := owners[id].(phase := phase)] else owners
  }

  function CloseAll(owners: map<nat, Owner>, ids: set<nat>, target: Lifecycle, outcome: Outcome): map<nat, Owner> {
    map id | id in owners ::
      if id in ids then owners[id].(phase := Closing(target, outcome)) else owners[id]
  }

  predicate HasPhase(s: State, id: nat) {
    id in s.owners && id in s.core.controls
  }

  // ---- submitters ----

  function ApplySubmit(limits: Limits, s: State, a: nat, deadline: Option<nat>, supervised: bool): State {
    var (core, admitted) := Submit(limits, s.core, deadline, supervised);
    match admitted
    case RejectedShutdown => s
    case QueueFull => s.(core := core)
    case Direct(id) =>
      s.(core := core,
         owners := s.owners[id := Owner(InReady, ActivePermit, false, None)],
         submitters := s.submitters[a := Notifying],
         admitted := s.admitted + [id])
    case Enqueued(id) =>
      s.(core := core,
         owners := s.owners[id := Owner(InQueue, QueuePermit, false, None)],
         submitters := s.submitters[a := Notifying])
  }

  /** The two shapes a submission can take: refused, or one new task at the back of a deque. */
  predicate Refused(s: State, s': State) {
    s' == s.(core := s.core.(nextId := s'.core.nextId)) && s'.core.nextId >= s.core.nextId
  }

  predicate NewTask(s: State, s': State, a: nat, direct: bool, control: Control) {
    var id := s.core.nextId;
    && s.core.accepting
    && control.reason.None?
    && s'.core == s.core.(
         nextId := id + 1,
         queue := if direct then s.core.queue else s.core.queue + [id],
         ready := if direct then s.core.ready + [id] else s.core.ready,
         active := if direct then s.core.active + {id} else s.core.active,
         controls := s.core.controls[id := control])
    && s' == s.(
         core := s'.core,
         owners := s.owners[id := if direct then Owner(InReady, ActivePermit, false, None)
                                  else Owner(InQueue, QueuePermit, false, None)],
         submitters := s.submitters[a := Notifying],
         admitted := if direct then s.admitted + [id] else s.admitted)
    && (direct ==> s.core.queue == [] && control.lifecycle.AcceptedNotStarted?)
    && (!direct ==> control.lifecycle.Queued?)
  }

  lemma SubmitShape(limits: Limits, s: State, a: nat, deadline: Option<nat>, supervised: bool)
    requires s.core.nextId < MAX_ID
    ensures var s' := ApplySubmit(limits, s, a, deadline, supervised);
            if !s.core.accepting then s' == s
            else if s.core.queue == [] && |s.core.active| < limits.active then
              NewTask(s, s', a, true, Control(deadline, supervised, AcceptedNotStarted, None))
            else if |s.core.queue| < limits.queue then
              NewTask(s, s', a, false, Control(deadline, supervised, Queued, None))
            else Refused(s, s')
  {
  }

  /** `notify_one`: one waiter is woken, and a waiting shutdown caller may be that one. */
  predicate NotifyOneMay(s: State, woken: Option<nat>) {
    match woken
    case Some(m) => m in s.managers && s.managers[m].Sleeping? && !s.managers[m].signalled
    case None =>
      || (forall m :: m in s.managers && s.managers[m].Sleeping? ==> s.managers[m].signalled)
      || (exists k :: k in s.shutdowns && s.shutdowns[k].pc.Waiting?)
  }

  function Signal(m: Manager): Manager {
    if m.Sleeping? then m.(signalled := true) else m
  }

  function SignalAll(managers: map<nat, Manager>): map<nat, Manager> {
    map m | m in managers :: Signal(managers[m])
  }

  function ApplyNotifyOne(s: State, a: nat, woken: Option<nat>): State {
    var s1 := s.(submitters := s.submitters[a := Ensuring]);
    if woken.Some? && woken.value in s.managers
    then s1.(managers := s.managers[woken.value := Signal(s.managers[woken.value])])
    else s1
  }

  function ApplyEnsure(s: State, a: nat): State {
    if s.managerStarted then s.(submitters := s.submitters - {a})
    else s.(managerStarted := true, submitters := s.submitters[a := SpawningManager])
  }

  function ApplyFailPending(s: State, a: nat): State {
    s.(core := FailPending(s.core),
       owners := CloseAll(s.owners, Elems(s.core.queue) + Elems(s.core.ready), Failed, InternalFailure),
       submitters := s.submitters - {a})
  }

  // ---- the manager ----

  function Swept(s: State): set<nat> {
    (set id | id in s.core.queue && IsDue(s.core.controls, s.now, id)) +
    (set id | id in s.core.ready && IsDue(s.core.controls, s.now, id))
  }

  function SweepState(s: State): State {
    s.(core := Sweep(s.core, s.now),
       owners := CloseAll(s.owners, Swept(s), Terminated, DeadlineFailure))
  }

  function PromoteOneState(s: State): State
    requires s.core.queue != []
  {
    var id := s.core.queue[0];
    s.(core := PromoteOne(s.core),
       owners := if id in s.owners
                 then s.owners[id := s.owners[id].(phase := InReady, permit := ActivePermit)]
                 else s.owners,
       admitted := s.admitted + [id])
  }

  function PromoteState(limits: Limits, s: State): State
    decreases |s.core.queue|
  {
    if CanPromote(limits, s.core) then PromoteState(limits, PromoteOneState(s)) else s
  }

  function DispatchState(s: State): State {
    if s.core.ready == [] then s
    else
      var id := s.core.ready[0];
      s.(core := PopReady(s.core).0,
         owners := SetPhase(s.owners, id, Dispatching),
         dispatched := s.dispatched + [id])
  }

  function PassState(limits: Limits, s: State): State {
    DispatchState(PromoteState(limits, SweepState(s)))
  }

  function PassNext(s1: State, taken: Option<nat>): After {
    if !s1.core.accepting && Drained(s1.core) then Exit
    else if taken.Some? then Spawn(taken.value)
    else Recheck
  }

  function ApplyPass(limits: Limits, s: State, m: nat): State {
    var taken := Pass(limits, s.core, s.now).1;
    var s1 := PassState(limits, s);
    s1.(managers := s.managers[m := Draining(Swept(s), PassNext(s1, taken))])
  }

  function Resume(next: After): Manager {
    match next
    case Exit => Exiting
    case Recheck => Rechecking
    case Spawn(id) => SpawningTask(id)
    case Again => Top
  }

  predicate ClosedAll(s: State, ids: set<nat>) {
    forall id :: id in ids ==> id in s.owners && s.owners[id].phase.Finished()
  }

  /** The sleep ends at the next enforced deadline, or after 100 ms when there is none. */
  ghost predicate SleepsUntil(s: State, until: nat) {
    exists u: Option<nat> :: IsNextDeadline(s.core, u) && until == (if u.Some? then u.value else s.now + 100)
  }

  function ApplyRecheck(limits: Limits, s: State, m: nat, until: nat): State {
    if Drained(s.core) then s.(managerStarted := false, managers := s.managers - {m})
    else if Dispatchable(limits, s.core) then s.(managers := s.managers[m := Top])
    else s.(managers := s.managers[m := Sleeping(until, false)])
  }

  function ApplyDispatch(s: State, m: nat, id: nat, ok: bool): State {
    if ok then s.(owners := SetPhase(s.owners, id, OnThread), managers := s.managers[m := Top])
    else s.(owners := SetPhase(s.owners, id, Closing(Failed, InternalFailure)),
            managers := s.managers[m := Draining({id}, Again)])
  }

  // ---- owners on their way to the result cell ----

  function SetTask(s: State, id: nat, control: Control, owner: Owner): State {
    s.(core := s.core.(controls := s.core.controls[id := control]), owners := s.owners[id := owner])
  }

  function ApplyBegin(s: State, id: nat): State
    requires HasPhase(s, id)
  {
    var (control, ok) := BeginStart(s.core.controls[id], s.now);
    var owner := s.owners[id];
    SetTask(s, id, control,
      if ok then owner.(phase := Running, invoked := true)
      else owner.(phase := Closing(Terminated, ClosingOutcome(control.reason))))
  }

  function ApplyResolve(s: State, id: nat, result: BackendResult): State
    requires HasPhase(s, id)
  {
    match Resolve(s.core.controls[id], result)
    case None => s.(owners := SetPhase(s.owners, id, Abandoned))
    case Some((control, outcome)) => SetTask(s, id, control, s.owners[id].(phase := Marked(outcome)))
  }

  function ApplyMarkTerminal(s: State, id: nat): State
    requires HasPhase(s, id) && s.owners[id].phase.Closing?
  {
    var phase := s.owners[id].phase;
    var (control, ok) := MarkTerminal(s.core.controls[id], phase.target);
    SetTask(s, id, control, s.owners[id].(phase := if ok then Marked(phase.outcome) else Abandoned))
  }

  /** Dropping the permit: an `ActivePermit` removes its id from `active`, a `QueuePermit` does nothing. */
  function ApplyRelease(s: State, id: nat): State
    requires HasPhase(s, id) && (s.owners[id].phase.Marked? || s.owners[id].phase.Abandoned?)
  {
    var owner := s.owners[id];
    var next := if owner.phase.Abandoned? then Forgotten
                else if owner.permit.ActivePermit? then Waking(owner.phase.outcome)
                else Released(owner.phase.outcome);
    s.(core := if owner.permit.ActivePermit? then Release(s.core, id) else s.core,
       owners := s.owners[id := owner.(phase := next, permit := NoPermit)])
  }

  function ApplyPublish(s: State, id: nat): State
    requires HasPhase(s, id) && s.owners[id].phase.Released?
  {
    var owner := s.owners[id];
    s.(owners := s.owners[id := owner.(
         phase := Done,
         result := if owner.result.None? then Some(owner.phase.outcome) else owner.result)])
  }

  function ApplyCancel(s: State, id: nat, reason: CancelReason): State
    requires HasPhase(s, id)
  {
    var removal := Cancel(s.core, id, reason);
    s.(core := removal.core,
       owners := if removal.owned
                 then SetPhase(s.owners, id, Closing(Terminated, ClosingOutcome(Some(reason))))
                 else s.owners)
  }

  // ---- shutdown ----

  /** Those of `ids` whose `mark_cancelling` answers `Requested`. */
  function Requestable(c: Core, ids: set<nat>): set<nat> {
    set id | id in ids && id in c.controls && MarkCancelling(c.controls[id], Shutdown).1.Requested?
  }

  predicate LateStarts(s: State, late: set<nat>) {
    forall id :: id in late ==> id in s.core.active && id in s.core.controls && s.core.controls[id].lifecycle.Started?
  }

  /** What the first section finds to cancel among the admitted tasks outside `ready`. */
  function Met(c: Core, late: set<nat>): set<nat> {
    Requestable(c, Unstarted(c) + late)
  }

  function NewCall(c: Core, met: set<nat>): ShutdownCall {
    ShutdownCall(Waiting, ShutdownReport(|c.queue|, |c.ready| + |met|, 0),
                 Elems(c.queue), Elems(c.ready) + met, {})
  }

  function ApplyShutdown(s: State, k: nat, late: set<nat>): State {
    var c := s.core;
    s.(core := BeginShutdown(c, late),
       owners := CloseAll(s.owners, Elems(c.queue) + Elems(c.ready), Terminated, CancelledFailure),
       shutdowns := s.shutdowns[k := NewCall(c, Met(c, late))])
  }

  function SetCall(s: State, k: nat, call: ShutdownCall): State {
    s.(shutdowns := s.shutdowns[k := call])
  }

  function ApplyShutdownRequest(s: State, k: nat, id: nat): State
    requires k in s.shutdowns && s.shutdowns[k].pc.Requesting? && HasPhase(s, id)
  {
    var call := s.shutdowns[k];
    var s1 := SetCall(s, k, call.(pc := Requesting(call.pc.todo - {id})));
    var removal := Cancel(s.core, id, Shutdown);
    var s2 := ApplyCancel(s1, id, Shutdown);
    if removal.outcome.Requested? then
      SetCall(s2, k, call.(
        pc := Requesting(call.pc.todo - {id}),
        report := call.report.(activeRequested := call.report.activeRequested + 1),
        requested := call.requested + {id}))
    else s2
  }

  // ---- the relation ----

  predicate PhaseIs(s: State, id: nat, phase: Phase) {
    HasPhase(s, id) && s.owners[id].phase == phase
  }

  predicate SubmitterAt(s: State, a: nat, pc: Submitter) {
    a in s.submitters && s.submitters[a] == pc
  }

  predicate ManagerAt(s: State, m: nat, pc: Manager) {
    m in s.managers && s.managers[m] == pc
  }

  ghost predicate Enabled(limits: Limits, s: State, e: Event) {
    match e
    case Tick(time) => s.now <= time
    // Fewer than 2^64 submissions: `next_id` does not wrap.
    case SubmitSection(a, _, _) => a !in s.submitters && s.core.nextId < MAX_ID
    case SubmitNotify(a, woken) => SubmitterAt(s, a, Notifying) && NotifyOneMay(s, woken)
    case EnsureManager(a) => SubmitterAt(s, a, Ensuring)
    case SpawnManager(a, m) => SubmitterAt(s, a, SpawningManager) && m !in s.managers
    case SpawnManagerFails(a) => SubmitterAt(s, a, SpawningManager)
    case FailPendingSection(a) => SubmitterAt(s, a, Failing)
    case ManagerPass(m) => ManagerAt(s, m, Top)
    case ManagerDrained(m) => m in s.managers && s.managers[m].Draining? && ClosedAll(s, s.managers[m].closing)
    case ManagerExit(m) => ManagerAt(s, m, Exiting)
    case ManagerRecheck(m, until) => ManagerAt(s, m, Rechecking) && SleepsUntil(s, until)
    case ManagerWake(m) => m in s.managers && s.managers[m].Sleeping?
    case DispatchTask(m, _) => m in s.managers && s.managers[m].SpawningTask?
    case TaskBegins(id) => PhaseIs(s, id, OnThread)
    case TaskReportsStarted(id) => PhaseIs(s, id, Running)
    case TaskResolves(id, _) => PhaseIs(s, id, Running)
    case TaskPanics(id) => PhaseIs(s, id, OnThread) || PhaseIs(s, id, Running)
    case OwnerMarksTerminal(id) => HasPhase(s, id) && s.owners[id].phase.Closing?
    case OwnerReleases(id) => HasPhase(s, id) && (s.owners[id].phase.Marked? || s.owners[id].phase.Abandoned?)
    case OwnerNotifies(id) => HasPhase(s, id) && s.owners[id].phase.Waking?
    case OwnerPublishes(id) => HasPhase(s, id) && s.owners[id].phase.Released?
    case CancelSection(id, _) => HasPhase(s, id)
    case NotifyAll => true
    case ShutdownSection(k, late) => k !in s.shutdowns && LateStarts(s, late)
    case ShutdownIdle(k) => k in s.shutdowns && s.shutdowns[k].pc.Waiting? && s.core.active == {}
    case ShutdownGraceOver(k) => k in s.shutdowns && s.shutdowns[k].pc.Waiting?
    case ShutdownCollects(k) => k in s.shutdowns && s.shutdowns[k].pc.Collecting?
    case ShutdownRequests(k, id) =>
      k in s.shutdowns && s.shutdowns[k].pc.Requesting? && id in s.shutdowns[k].pc.todo && HasPhase(s, id)
    case ShutdownReturns(k) => k in s.shutdowns && s.shutdowns[k].pc == Requesting({})
  }

  ghost function Apply(limits: Limits, s: State, e: Event): State
    requires Enabled(limits, s, e)
  {
    match e
    case Tick(time) => s.(now := time)
    case SubmitSection(a, deadline, supervised) => ApplySubmit(limits, s, a, deadline, supervised)
    case SubmitNotify(a, woken) => ApplyNotifyOne(s, a, woken)
    case EnsureManager(a) => ApplyEnsure(s, a)
    case SpawnManager(a, m) => s.(managers := s.managers[m := Top], submitters := s.submitters - {a})
    case SpawnManagerFails(a) => s.(managerStarted := false, submitters := s.submitters[a := Failing])
    case FailPendingSection(a) => ApplyFailPending(s, a)
    case ManagerPass(m) => ApplyPass(limits, s, m)
    case ManagerDrained(m) => s.(managers := s.managers[m := Resume(s.managers[m].next)])
    case ManagerExit(m) => s.(managerStarted := false, managers := s.managers - {m})
    case ManagerRecheck(m, until) => ApplyRecheck(limits, s, m, until)
    case ManagerWake(m) => s.(managers := s.managers[m := Top])
    case DispatchTask(m, ok) => ApplyDispatch(s, m, s.managers[m].id, ok)
    case TaskBegins(id) => ApplyBegin(s, id)
    case TaskReportsStarted(id) => SetTask(s, id, MarkStarted(s.core.controls[id]), s.owners[id])
    case TaskResolves(id, result) => ApplyResolve(s, id, result)
    case TaskPanics(id) => s.(owners := SetPhase(s.owners, id, Closing(Failed, InternalFailure)))
    case OwnerMarksTerminal(id) => ApplyMarkTerminal(s, id)
    case OwnerReleases(id) => ApplyRelease(s, id)
    case OwnerNotifies(id) =>
      s.(owners := SetPhase(s.owners, id, Released(s.owners[id].phase.outcome)), managers := SignalAll(s.managers))
    case OwnerPublishes(id) => ApplyPublish(s, id)
    case CancelSection(id, reason) => ApplyCancel(s, id, reason)
    case NotifyAll => s.(managers := SignalAll(s.managers))
    case ShutdownSection(k, late) => ApplyShutdown(s, k, late)
    case ShutdownIdle(k) => SetCall(s, k, s.shutdowns[k].(pc := Returned))
    case ShutdownGraceOver(k) => SetCall(s, k, s.shutdowns[k].(pc := Collecting))
    case ShutdownCollects(k) =>
      SetCall(s, k, s.shutdowns[k].(pc := Requesting(
        set id | id in s.core.active && id in s.core.controls && s.core.controls[id].lifecycle.Started?)))
    case ShutdownRequests(k, id) => ApplyShutdownRequest(s, k, id)
    case ShutdownReturns(k) => SetCall(s, k, s.shutdowns[k].(pc := Returned))
  }

  /** A finite run: states[i] takes events[i] to states[i + 1]. */
  ghost predicate IsRun(limits: Limits, states: seq<State>, events: seq<Event>) {
    && |states| == |events| + 1
    && states[0] == InitialState
    && forall i {:trigger events[i]} :: 0 <= i < |events| ==>
         Enabled(limits, states[i], events[i]) && states[i + 1] == Apply(limits, states[i], events[i])
  }
}
