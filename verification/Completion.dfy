/**
  Every accepted task gets its result: the executor's own steps cannot go on for ever, and
  they only run out once every result is published.
 */
module Completion {
  import opened Wrappers
  import opened Tasks
  import opened Admission
  import opened Scheduling
  import opened Conservation
  import opened Fifo
  import opened Managers
  import opened SchedulerInvariant
  import opened SchedulerTheorems
  import opened Progress
  import opened Ranking

  // ---- ranks: how far a task, a submitter, the manager still has to go ----

  function PhaseRank(p: Phase): (r: nat)
    ensures r <= 10
  {
    match p
    case InQueue => 10
    case InReady => 9
    case Dispatching => 8
    case OnThread => 7
    case Running => 6
    case Closing(_, _) => 5
    case Marked(_) => 4
    case Waking(_) => 3
    case Abandoned => 3
    case Released(_) => 2
    case Done => 0
    case Forgotten => 0
  }

  function LifecycleRank(l: Lifecycle): (r: nat)
    ensures r <= 4
  {
    match l
    case Queued => 4
    case AcceptedNotStarted => 3
    case Started => 2
    case Cancelling => 1
    case _ => 0
  }

  function TaskRank(t: Control, o: Owner): (r: nat)
    ensures r <= 14
  {
    PhaseRank(o.phase) + LifecycleRank(t.lifecycle)
  }

  function TaskRanks(s: State): map<nat, nat> {
    map id | id in s.owners && id in s.core.controls :: TaskRank(s.core.controls[id], s.owners[id])
  }

  function SubmitterRank(a: Submitter): (r: nat)
    ensures 1 <= r <= 4
  {
    match a
    case Notifying => 4
    case Ensuring => 3
    case SpawningManager => 2
    case Failing => 1
  }

  function SubmitterRanks(s: State): map<nat, nat> {
    map a | a in s.submitters :: SubmitterRank(s.submitters[a])
  }

  predicate IsOverdue(c: Core, now: nat, id: nat) {
    Enforced(c, id) && IsDue(c.controls, now, id)
  }

  /** Something for a pass to do. */
  ghost predicate Busy(limits: Limits, s: State) {
    Dispatchable(limits, s.core) || exists id :: IsOverdue(s.core, s.now, id)
  }

  function AwakeRank(busy: bool, now: nat, m: Manager): (r: nat)
    requires !m.Draining?
    ensures r <= 7
  {
    match m
    case Rechecking => if busy then 7 else 2
    case Sleeping(until, signalled) => if signalled || until <= now then 6 else 0
    case Top => 5
    case Exiting => 1
    case SpawningTask(_) => 1
  }

  function ManagerRank(busy: bool, now: nat, m: Manager): (r: nat)
    ensures r <= 8
  {
    if m.Draining? then AwakeRank(busy, now, Resume(m.next)) + 1 else AwakeRank(busy, now, m)
  }

  ghost function ManagerRanks(limits: Limits, s: State): map<nat, nat> {
    map m | m in s.managers :: ManagerRank(Busy(limits, s), s.now, s.managers[m])
  }

  function Left(s: State): nat {
    Total(TaskRanks(s), 14) + Total(SubmitterRanks(s), 4)
  }

  ghost function Measure(limits: Limits, s: State): nat {
    9 * Left(s) + Total(ManagerRanks(limits, s), 8)
  }

  // ---- steps that bring a task or a submitter on ----

  /** The manager's rank never outweighs one step of a task or submitter. */
  lemma LeftDecides(limits: Limits, s: State, s': State)
    requires Left(s') < Left(s) && forall m, n :: m in s'.managers && n in s'.managers ==> m == n
    ensures Measure(limits, s') < Measure(limits, s)
  {
    TotalOfOne(ManagerRanks(limits, s'), 8);
  }

  lemma TaskStepLowers(s: State, s': State, id: nat)
    requires id in s.owners && id in s.core.controls && s'.submitters == s.submitters
    requires Below(TaskRanks(s'), TaskRanks(s))
    requires id in TaskRanks(s') && TaskRanks(s')[id] < TaskRanks(s)[id]
    ensures Left(s') < Left(s)
  {
    TotalDrops(TaskRanks(s'), TaskRanks(s), 14, id);
  }

  lemma SubmitterStepLowers(s: State, s': State, a: nat)
    requires a in s.submitters && Below(TaskRanks(s'), TaskRanks(s))
    requires Below(SubmitterRanks(s'), SubmitterRanks(s))
    requires a in s'.submitters ==> SubmitterRank(s'.submitters[a]) < SubmitterRank(s.submitters[a])
    ensures Left(s') < Left(s)
  {
    TotalFalls(TaskRanks(s'), TaskRanks(s), 14);
    TotalDrops(SubmitterRanks(s'), SubmitterRanks(s), 4, a);
  }

  /** One task's control and owner change; the others stay. */
  ghost predicate OnlyTask(s: State, s': State, id: nat) {
    && HasPhase(s, id) && HasPhase(s', id)
    && s'.submitters == s.submitters
    && s'.core.controls == s.core.controls[id := s'.core.controls[id]]
    && s'.owners == s.owners[id := s'.owners[id]]
  }

  lemma OnlyTaskLowers(s: State, s': State, id: nat)
    requires OnlyTask(s, s', id)
    requires TaskRank(s'.core.controls[id], s'.owners[id]) < TaskRank(s.core.controls[id], s.owners[id])
    ensures Left(s') < Left(s)
  {
    TaskStepLowers(s, s', id);
  }

  lemma BeginLowers(limits: Limits, s: State, id: nat)
    requires Conserved(limits, s) && PhaseIs(s, id, OnThread)
    ensures Left(ApplyBegin(s, id)) < Left(s)
  {
    assert TaskAt(s.core, s.owners, id);
    OnlyTaskLowers(s, ApplyBegin(s, id), id);
  }

  lemma ResolveLowers(limits: Limits, s: State, id: nat, result: BackendResult)
    requires Conserved(limits, s) && PhaseIs(s, id, Running)
    ensures Left(ApplyResolve(s, id, result)) < Left(s)
  {
    assert TaskAt(s.core, s.owners, id);
    OnlyTaskLowers(s, ApplyResolve(s, id, result), id);
  }

  /** The owner moves on and the control block stays. */
  lemma PhaseLowers(s: State, s': State, id: nat)
    requires HasPhase(s, id) && id in s'.owners && s'.submitters == s.submitters
    requires s'.core.controls == s.core.controls && s'.owners == s.owners[id := s'.owners[id]]
    requires PhaseRank(s'.owners[id].phase) < PhaseRank(s.owners[id].phase)
    ensures Left(s') < Left(s)
  {
    assert s.core.controls == s.core.controls[id := s.core.controls[id]];
    OnlyTaskLowers(s, s', id);
  }

  lemma ThreadStepLowers(limits: Limits, s: State, e: Event)
    requires Conserved(limits, s) && Enabled(limits, s, e) && OfThread(e) && !e.TaskReportsStarted?
    ensures Left(Apply(limits, s, e)) < Left(s)
  {
    match e
    case TaskBegins(id) => BeginLowers(limits, s, id);
    case TaskResolves(id, result) => ResolveLowers(limits, s, id, result);
    case TaskPanics(id) => PanicLowers(s, id);
  }

  lemma PanicLowers(s: State, id: nat)
    requires HasPhase(s, id) && (s.owners[id].phase.OnThread? || s.owners[id].phase.Running?)
    ensures Left(s.(owners := SetPhase(s.owners, id, Closing(Failed, InternalFailure)))) < Left(s)
  {
    PhaseLowers(s, s.(owners := SetPhase(s.owners, id, Closing(Failed, InternalFailure))), id);
  }

  lemma MarkTerminalLowers(limits: Limits, s: State, id: nat)
    requires Conserved(limits, s) && HasPhase(s, id) && s.owners[id].phase.Closing?
    ensures Left(ApplyMarkTerminal(s, id)) < Left(s)
  {
    assert TaskAt(s.core, s.owners, id);
    OnlyTaskLowers(s, ApplyMarkTerminal(s, id), id);
  }

  lemma ReleaseLowers(s: State, id: nat)
    requires HasPhase(s, id) && (s.owners[id].phase.Marked? || s.owners[id].phase.Abandoned?)
    ensures Left(ApplyRelease(s, id)) < Left(s)
  {
    PhaseLowers(s, ApplyRelease(s, id), id);
  }

  lemma PublishLowers(s: State, id: nat)
    requires HasPhase(s, id) && s.owners[id].phase.Released?
    ensures Left(ApplyPublish(s, id)) < Left(s)
  {
    PhaseLowers(s, ApplyPublish(s, id), id);
  }

  lemma NotifyLowers(limits: Limits, s: State, id: nat)
    requires HasPhase(s, id) && s.owners[id].phase.Waking?
    ensures Left(Apply(limits, s, OwnerNotifies(id))) < Left(s)
  {
    PhaseLowers(s, Apply(limits, s, OwnerNotifies(id)), id);
  }

  lemma OwnerStepLowers(limits: Limits, s: State, e: Event)
    requires Conserved(limits, s) && Enabled(limits, s, e) && OfOneTask(e) && !OfThread(e)
    ensures Left(Apply(limits, s, e)) < Left(s)
  {
    match e
    case OwnerMarksTerminal(id) => MarkTerminalLowers(limits, s, id);
    case OwnerReleases(id) => ReleaseLowers(s, id);
    case OwnerNotifies(id) => NotifyLowers(limits, s, id);
    case OwnerPublishes(id) => PublishLowers(s, id);
  }

  lemma DispatchLowers(limits: Limits, s: State, m: nat, ok: bool)
    requires Conserved(limits, s) && Managed(s) && Enabled(limits, s, DispatchTask(m, ok))
    ensures Left(Apply(limits, s, DispatchTask(m, ok))) < Left(s)
  {
    var id := s.managers[m].id;
    assert Carries(s.managers[m]) == Some(id);
    assert id in Dispatchings(s.owners);
    PhaseLowers(s, ApplyDispatch(s, m, id, ok), id);
  }

  predicate OfSubmitter(e: Event) {
    e.SubmitNotify? || e.EnsureManager? || e.SpawnManager? || e.SpawnManagerFails?
  }

  lemma SubmitterLowers(limits: Limits, s: State, e: Event)
    requires Enabled(limits, s, e) && OfSubmitter(e)
    ensures Left(Apply(limits, s, e)) < Left(s)
  {
    var s' := Apply(limits, s, e);
    assert TaskRanks(s') == TaskRanks(s);
    SubmitterStepLowers(s, s', e.a);
  }

  lemma FailPendingLowers(limits: Limits, s: State, a: nat)
    requires Conserved(limits, s) && Enabled(limits, s, FailPendingSection(a))
    ensures Left(Apply(limits, s, FailPendingSection(a))) < Left(s)
  {
    FailPendingRanks(limits, s, a);
    SubmitterStepLowers(s, ApplyFailPending(s, a), a);
  }

  lemma FailPendingRanks(limits: Limits, s: State, a: nat)
    requires Conserved(limits, s)
    ensures Below(TaskRanks(ApplyFailPending(s, a)), TaskRanks(s))
  {
    var s' := ApplyFailPending(s, a);
    forall id | id in TaskRanks(s')
      ensures id in TaskRanks(s) && TaskRanks(s')[id] <= TaskRanks(s)[id]
    {
      assert TaskAt(s.core, s.owners, id);
    }
  }

  // ---- a pass of the manager ----

  lemma SweepLowers(limits: Limits, s: State)
    requires Conserved(limits, s)
    ensures Below(TaskRanks(SweepState(s)), TaskRanks(s))
  {
    var s' := SweepState(s);
    forall id | id in TaskRanks(s')
      ensures id in TaskRanks(s) && TaskRanks(s')[id] <= TaskRanks(s)[id]
    {
      assert TaskAt(s.core, s.owners, id);
    }
  }

  lemma PromoteOneLowers(limits: Limits, s: State)
    requires Conserved(limits, s) && s.core.queue != []
    ensures Below(TaskRanks(PromoteOneState(s)), TaskRanks(s))
  {
    var id := s.core.queue[0];
    assert id in s.core.queue;
    assert TaskAt(s.core, s.owners, id);
  }

  lemma BelowComposes(m2: map<nat, nat>, m1: map<nat, nat>, m: map<nat, nat>)
    requires Below(m2, m1) && Below(m1, m)
    ensures Below(m2, m)
  {
  }

  lemma {:induction false} PromoteLowers(limits: Limits, s: State)
    requires Conserved(limits, s) && Fair(s)
    ensures Below(TaskRanks(PromoteState(limits, s)), TaskRanks(s))
    decreases |s.core.queue|
  {
    if CanPromote(limits, s.core) {
      var s1 := PromoteOneState(s);
      BehindIfFair(s);
      PromoteOneKeeps(limits, s);
      PromoteOneKeepsOrder(s);
      PromoteOneLowers(limits, s);
      PromoteLowers(limits, s1);
      BelowComposes(TaskRanks(PromoteState(limits, s1)), TaskRanks(s1), TaskRanks(s));
    }
  }

  lemma TakingLowers(limits: Limits, s: State)
    requires Conserved(limits, s)
    ensures Below(TaskRanks(DispatchState(s)), TaskRanks(s))
    ensures s.core.ready != [] ==>
      var id := s.core.ready[0];
      id in TaskRanks(s) && id in TaskRanks(DispatchState(s)) && TaskRanks(DispatchState(s))[id] < TaskRanks(s)[id]
  {
    if s.core.ready != [] {
      assert s.core.ready[0] in s.core.ready;
      assert TaskAt(s.core, s.owners, s.core.ready[0]);
    }
  }

  lemma {:induction false} PromoteLeavesSubmitters(limits: Limits, s: State)
    ensures PromoteState(limits, s).submitters == s.submitters && PromoteState(limits, s).now == s.now
    decreases |s.core.queue|
  {
    if CanPromote(limits, s.core) {
      PromoteLeavesSubmitters(limits, PromoteOneState(s));
    }
  }

  /** A pass raises nobody's rank, and taking a task from ready lowers one. */
  lemma PassLowers(limits: Limits, s: State)
    requires Conserved(limits, s) && Fair(s)
    ensures Left(PassState(limits, s)) <= Left(s)
    ensures Pass(limits, s.core, s.now).1.Some? ==> Left(PassState(limits, s)) < Left(s)
  {
    var s1 := SweepState(s);
    var s2 := PromoteState(limits, s1);
    SweepKeeps(limits, s);
    SweepKeepsOrder(s);
    SweepLowers(limits, s);
    PromoteLowers(limits, s1);
    PassDispatches(limits, s, s1, s2);
    PromoteLeavesSubmitters(limits, s1);
    PassTakes(limits, s);
    TakingLowers(limits, s2);
    TotalFalls(TaskRanks(s1), TaskRanks(s), 14);
    TotalFalls(TaskRanks(s2), TaskRanks(s1), 14);
    var s3 := DispatchState(s2);
    TotalFalls(TaskRanks(s3), TaskRanks(s2), 14);
    if s2.core.ready != [] {
      TotalDrops(TaskRanks(s3), TaskRanks(s2), 14, s2.core.ready[0]);
    }
  }

  lemma {:induction false} PromoteStops(limits: Limits, c: Core)
    ensures !CanPromote(limits, Promote(limits, c))
    decreases |c.queue|
  {
    if CanPromote(limits, c) {
      PromoteStops(limits, PromoteOne(c));
    }
  }

  /** A pass that takes nothing leaves nothing to do. */
  lemma PassLeavesNothing(limits: Limits, s: State)
    requires Conserved(limits, s) && Pass(limits, s.core, s.now).1.None?
    ensures !Busy(limits, PassState(limits, s))
  {
    var s' := PassState(limits, s);
    PassMatches(limits, s);
    ReasonsAlwaysFit(limits, s);
    PassClears(limits, s.core, s.now);
    PromoteStops(limits, Sweep(s.core, s.now));
    PromoteLeavesSubmitters(limits, SweepState(s));
    assert s'.now == s.now;
    forall id
      ensures !IsOverdue(s'.core, s'.now, id)
    {
      assert IsDue(s'.core.controls, s.now, id) ==> id !in s'.core.queue && id !in s'.core.ready;
    }
  }

  lemma OneManager(s: State, m: nat)
    requires Managed(s) && m in s.managers
    ensures forall n :: n in s.managers ==> n == m
  {
  }

  // ---- the manager's own steps ----

  lemma ManagerMoves(limits: Limits, s: State, s': State, m: nat)
    requires Managed(s) && m in s.managers && Left(s') <= Left(s)
    requires forall n :: n in s'.managers ==> n == m
    requires ManagerRank(Busy(limits, s), s.now, s.managers[m]) > 0
    requires m in s'.managers ==>
      ManagerRank(Busy(limits, s'), s'.now, s'.managers[m]) < ManagerRank(Busy(limits, s), s.now, s.managers[m])
    ensures Measure(limits, s') < Measure(limits, s)
  {
    TotalDrops(ManagerRanks(limits, s'), ManagerRanks(limits, s), 8, m);
  }

  predicate OfManagerAlone(e: Event) {
    e.ManagerDrained? || e.ManagerExit? || e.ManagerRecheck? || e.ManagerWake?
  }

  lemma SleepingIsDone(limits: Limits, s: State, until: nat)
    requires SleepsUntil(s, until) && !Busy(limits, s)
    ensures until > s.now
  {
    var u: Option<nat> :| IsNextDeadline(s.core, u) && until == (if u.Some? then u.value else s.now + 100);
    if u.Some? {
      var id :| Enforced(s.core, id) && s.core.controls[id].deadline == Some(u.value);
      assert !IsOverdue(s.core, s.now, id);
    }
  }

  lemma RecheckShrinks(limits: Limits, s: State, m: nat, until: nat)
    requires Managed(s) && ManagerAt(s, m, Rechecking) && SleepsUntil(s, until)
    ensures Measure(limits, ApplyRecheck(limits, s, m, until)) < Measure(limits, s)
  {
    var s' := ApplyRecheck(limits, s, m, until);
    OneManager(s, m);
    if !Busy(limits, s) {
      SleepingIsDone(limits, s, until);
    }
    SameButManagers(limits, s, s');
    ManagerMoves(limits, s, s', m);
  }

  lemma SameButManagers(limits: Limits, s: State, s': State)
    requires s' == s.(managers := s'.managers, managerStarted := s'.managerStarted)
    ensures Left(s') == Left(s) && (Busy(limits, s') <==> Busy(limits, s))
  {
    assert TaskRanks(s') == TaskRanks(s) && SubmitterRanks(s') == SubmitterRanks(s);
  }

  lemma ManagerStepShrinks(limits: Limits, s: State, e: Event)
    requires Managed(s) && Working(limits, s, e) && OfManagerAlone(e)
    ensures Measure(limits, Apply(limits, s, e)) < Measure(limits, s)
  {
    if e.ManagerRecheck? {
      RecheckShrinks(limits, s, e.m, e.until);
    } else {
      var s' := Apply(limits, s, e);
      OneManager(s, e.m);
      SameButManagers(limits, s, s');
      ManagerMoves(limits, s, s', e.m);
    }
  }

  // ---- a pass as a step ----

  /** What the manager does after a pass that brought a task on, or left nothing to do. */
  lemma AfterPass(limits: Limits, s: State, s1: State, m: nat, after: Manager)
    requires Managed(s) && ManagerAt(s, m, Top) && after.Draining? && Left(s1) <= Left(s)
    requires Left(s1) < Left(s) || (!Busy(limits, s1) && (after.next.Exit? || after.next.Recheck?))
    ensures Measure(limits, s1.(managers := s.managers[m := after])) < Measure(limits, s)
  {
    var s' := s1.(managers := s.managers[m := after]);
    OneManager(s, m);
    SameButManagers(limits, s1, s');
    if Left(s1) < Left(s) {
      LeftDecides(limits, s, s');
    } else {
      ManagerMoves(limits, s, s', m);
    }
  }

  lemma ManagerPassShrinks(limits: Limits, s: State, m: nat)
    requires Conserved(limits, s) && Fair(s) && Managed(s) && ManagerAt(s, m, Top)
    ensures Measure(limits, ApplyPass(limits, s, m)) < Measure(limits, s)
  {
    var s1, taken := PassState(limits, s), Pass(limits, s.core, s.now).1;
    PassLowers(limits, s);
    if taken.None? {
      PassLeavesNothing(limits, s);
    }
    AfterPass(limits, s, s1, m, Draining(Swept(s), PassNext(s1, taken)));
  }

  // ---- the results ----

  /** Every step of the executor's own threads brings it strictly closer to the end. */
  lemma WorkShrinks(limits: Limits, s: State, e: Event)
    requires Inv(limits, s) && Working(limits, s, e)
    ensures Measure(limits, Apply(limits, s, e)) < Measure(limits, s)
  {
    var s' := Apply(limits, s, e);
    StepKeepsInv(limits, s, e);
    assert Managed(s');
    if e.ManagerPass? {
      ManagerPassShrinks(limits, s, e.m);
    } else if OfManagerAlone(e) {
      ManagerStepShrinks(limits, s, e);
    } else {
      LeftFalls(limits, s, e);
      LeftDecides(limits, s, s');
    }
  }

  lemma LeftFalls(limits: Limits, s: State, e: Event)
    requires Inv(limits, s) && Working(limits, s, e) && !e.ManagerPass? && !OfManagerAlone(e)
    ensures Left(Apply(limits, s, e)) < Left(s)
  {
    if OfThread(e) {
      ThreadStepLowers(limits, s, e);
    } else if OfOneTask(e) {
      OwnerStepLowers(limits, s, e);
    } else if OfSubmitter(e) {
      SubmitterLowers(limits, s, e);
    } else if e.DispatchTask? {
      DispatchLowers(limits, s, e.m, e.ok);
    } else {
      FailPendingLowers(limits, s, e.a);
    }
  }

  ghost predicate IsWork(limits: Limits, states: seq<State>, events: seq<Event>) {
    && |states| == |events| + 1
    && forall i {:trigger events[i]} :: 0 <= i < |events| ==>
         Working(limits, states[i], events[i]) && states[i + 1] == Apply(limits, states[i], events[i])
  }

  lemma LaterIsWork(limits: Limits, states: seq<State>, events: seq<Event>)
    requires IsWork(limits, states, events) && events != []
    ensures IsWork(limits, states[1..], events[1..])
    ensures Working(limits, states[0], events[0]) && states[1] == Apply(limits, states[0], events[0])
  {
    forall i | 0 <= i < |events[1..]|
      ensures Working(limits, states[1..][i], events[1..][i])
      ensures states[1..][i + 1] == Apply(limits, states[1..][i], events[1..][i])
    {
      assert events[i + 1] == events[1..][i];
    }
  }

  /** However they are scheduled, the executor's own steps run out. */
  lemma {:induction false} WorkRunsOut(limits: Limits, states: seq<State>, events: seq<Event>)
    requires IsWork(limits, states, events) && Inv(limits, states[0])
    ensures |events| <= Measure(limits, states[0])
    decreases |events|
  {
    if events != [] {
      WorkShrinks(limits, states[0], events[0]);
      StepKeepsInv(limits, states[0], events[0]);
      LaterIsWork(limits, states, events);
      WorkRunsOut(limits, states[1..], events[1..]);
    }
  }

  predicate AllPublished(s: State) {
    forall id :: id in s.core.controls ==> id in s.owners && s.owners[id].result.Some?
  }

  ghost predicate LeadsToCompletion(limits: Limits, states: seq<State>, events: seq<Event>) {
    IsWork(limits, states, events) && AllPublished(states[|events|])
  }

  /** One more step before a completion. */
  lemma StepThenComplete(limits: Limits, s: State, e: Event, later: seq<State>, steps: seq<Event>)
    requires Working(limits, s, e) && LeadsToCompletion(limits, later, steps) && later[0] == Apply(limits, s, e)
    ensures LeadsToCompletion(limits, [s] + later, [e] + steps)
  {
    var states, events := [s] + later, [e] + steps;
    forall i | 0 <= i < |events|
      ensures Working(limits, states[i], events[i]) && states[i + 1] == Apply(limits, states[i], events[i])
    {
      assert i > 0 ==> events[i] == steps[i - 1];
    }
  }

  lemma SomebodyWorks(limits: Limits, s: State)
    requires Inv(limits, s) && ClosingDeparted(s) && limits.active > 0 && !AllPublished(s)
    ensures CanWork(limits, s)
  {
    var id :| id in s.core.controls && !(id in s.owners && s.owners[id].result.Some?);
    assert TaskAt(s.core, s.owners, id);
    UnfinishedWorks(limits, s, id);
  }

  lemma {:induction false} CanComplete(limits: Limits, s: State) returns (states: seq<State>, events: seq<Event>)
    requires Inv(limits, s) && ClosingDeparted(s) && limits.active > 0
    ensures LeadsToCompletion(limits, states, events) && states[0] == s
    decreases Measure(limits, s)
  {
    if AllPublished(s) {
      return [s], [];
    }
    SomebodyWorks(limits, s);
    var e :| Working(limits, s, e);
    WorkShrinks(limits, s, e);
    StepKeepsInv(limits, s, e);
    StepKeepsClosingDeparted(limits, s, e);
    var later, steps := CanComplete(limits, Apply(limits, s, e));
    StepThenComplete(limits, s, e, later, steps);
    states, events := [s] + later, [e] + steps;
  }

  /**
    From every reachable state the executor's own threads can publish every accepted task's
    result; and however they are scheduled, they stop only once they have.
   */
  lemma EveryTaskIsPublished(limits: Limits, states: seq<State>, events: seq<Event>, i: nat)
    requires IsRun(limits, states, events) && i < |states| && limits.active > 0
    ensures exists later, steps :: LeadsToCompletion(limits, later, steps) && later[0] == states[i]
    ensures !CanWork(limits, states[i]) ==> AllPublished(states[i])
  {
    RunKeepsClosingDeparted(limits, states, events, i);
    var later, steps := CanComplete(limits, states[i]);
    if !CanWork(limits, states[i]) {
      forall id | id in states[i].core.controls
        ensures id in states[i].owners && states[i].owners[id].result.Some?
      {
        NeverStuck(limits, states, events, i, id);
      }
    }
  }
}
