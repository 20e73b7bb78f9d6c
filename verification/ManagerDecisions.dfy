/**
  What the manager decides, in terms of the deques, the limits and the clock: whom a pass
  hands over, when it leaves, when it goes on and how long it sleeps.
 */
module ManagerDecisions {
  import opened Wrappers
  import opened Admission
  import opened Scheduling
  import opened Conservation
  import opened Managers
  import opened SchedulerInvariant
  import opened TaskSteps

  predicate Idle(c: Core) {
    c.active == {} && c.queue == [] && c.ready == []
  }

  lemma {:induction false} PromoteFills(limits: Limits, s: State)
    ensures var s' := PromoteState(limits, s);
            && (|s'.core.active| >= limits.active || s'.core.queue == [])
            && s'.dispatched == s.dispatched
    decreases |s.core.queue|
  {
    if CanPromote(limits, s.core) {
      PromoteFills(limits, PromoteOneState(s));
    }
  }

  /**
    A pass wastes no slot and no turn: afterwards every slot is taken or the queue is empty,
    and one ready task has been taken if there was one. It then leaves exactly when admission
    is over and nothing is left, hands over what it took, or looks again.
   */
  lemma PassWastesNothing(limits: Limits, states: seq<State>, events: seq<Event>, i: nat, m: nat)
    requires IsRun(limits, states, events) && i < |events| && events[i] == ManagerPass(m)
    ensures var c, took := states[i + 1].core, states[i + 1].dispatched != states[i].dispatched;
            && (|c.active| == limits.active || c.queue == [])
            && (took <==> |states[i + 1].dispatched| == |states[i].dispatched| + 1)
            && (!took ==> c.ready == [])
            && m in states[i + 1].managers && states[i + 1].managers[m].Draining?
            && states[i + 1].managers[m].next == (
                 if !c.accepting && Idle(c) then Exit
                 else if took then Spawn(states[i + 1].dispatched[|states[i].dispatched|])
                 else Recheck)
  {
    var s := states[i];
    var s1 := SweepState(s);
    var s2 := PromoteState(limits, s1);
    RunKeepsInv(limits, states, events, i + 1);
    assert Enabled(limits, s, events[i]);
    PromoteFills(limits, s1);
    PassTakes(limits, s);
    PassEnds(limits, s, s2, m);
  }

  lemma PassEnds(limits: Limits, s: State, s2: State, m: nat)
    requires s2 == PromoteState(limits, SweepState(s)) && s2.dispatched == s.dispatched
    requires Pass(limits, s.core, s.now).1 == PopReady(s2.core).1
    ensures var s' := ApplyPass(limits, s, m);
            && s'.core == PopReady(s2.core).0
            && s'.dispatched == s.dispatched + (if s2.core.ready == [] then [] else [s2.core.ready[0]])
            && m in s'.managers && s'.managers[m].Draining?
            && s'.managers[m].next == (
                 if !s'.core.accepting && Idle(s'.core) then Exit
                 else if s2.core.ready != [] then Spawn(s2.core.ready[0])
                 else Recheck)
  {
  }

  /** The next moment the manager must look at deadlines: the least one it enforces, else 100 ms from now. */
  ghost predicate WakesAt(s: State, until: nat) {
    || (&& (exists id :: EnforcesAt(s, id, until))
        && (forall id, time :: EnforcesAt(s, id, time) ==> until <= time))
    || ((forall id, time :: !EnforcesAt(s, id, time)) && until == s.now + 100)
  }

  predicate EnforcesAt(s: State, id: nat, time: nat) {
    id in s.core.controls && Watched(s.core, id) && s.core.controls[id].deadline == Some(time)
  }

  /**
    A manager that took nothing leaves and clears its flag exactly when nothing is left,
    goes on when there is something to hand over, and otherwise sleeps until the next
    deadline it enforces.
   */
  lemma RecheckDecides(limits: Limits, states: seq<State>, events: seq<Event>, i: nat, m: nat, until: nat)
    requires IsRun(limits, states, events) && i < |events| && events[i] == ManagerRecheck(m, until)
    ensures var s, s' := states[i], states[i + 1];
            if Idle(s.core) then s'.managers == map[] && !s'.managerStarted
            else
              && s'.managerStarted == s.managerStarted
              && s'.managers == map[m :=
                   if s.core.ready != [] || (s.core.queue != [] && |s.core.active| < limits.active) then Top
                   else Sleeping(until, false)]
    ensures WakesAt(states[i], until)
  {
    var s := states[i];
    assert Enabled(limits, s, events[i]);
    RunKeepsInv(limits, states, events, i);
    assert forall n :: n in s.managers ==> n == m;
    SleepsWhenItShould(s, until);
  }

  lemma SleepsWhenItShould(s: State, until: nat)
    requires SleepsUntil(s, until) && Known(s.core)
    ensures WakesAt(s, until)
  {
    var u: Option<nat> :| IsNextDeadline(s.core, u) && until == (if u.Some? then u.value else s.now + 100);
    assert forall id, time :: EnforcesAt(s, id, time) ==> Enforced(s.core, id);
    if u.Some? {
      var id :| Enforced(s.core, id) && s.core.controls[id].deadline == Some(u.value);
      assert EnforcesAt(s, id, until);
    }
  }
}
