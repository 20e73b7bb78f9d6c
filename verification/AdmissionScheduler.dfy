/**
  The admission scheduler as the source keeps it: two deques of owners, a map of active
  controls and a counter, updated in place.  Each method is one critical section of the
  scheduler lock and is proved against the section's specification in `Admission`.
 */
module Executor {
  import opened Wrappers
  import opened Sequences
  import opened Tasks
  import opened TaskControls
  import opened Admission
  import Scheduling

  /** The last instant a monotonic clock can name; later ones fail `checked_add`. */
  const MAX_INSTANT: nat := 0xFFFF_FFFF_FFFF_FFFF

  datatype TaskPermit = Active | Queued

  datatype TaskOwner = TaskOwner(id: nat, deadline: Option<nat>, control: TaskControl, permit: TaskPermit)
  {
    function Promote(): (r: TaskOwner)
      ensures r.permit.Active? && r.id == id && r.control == control
    {
      this.(permit := Active)
    }
  }

  datatype SubmitResult = Accepted(control: TaskControl) | ShutDown | QueueFull | InvalidTimeout

  function Ids(q: seq<TaskOwner>): (r: seq<nat>)
    ensures |r| == |q|
    ensures forall i :: 0 <= i < |q| ==> r[i] == q[i].id
  {
    seq(|q|, i requires 0 <= i < |q| => q[i].id)
  }

  function OwnerId(o: Option<TaskOwner>): Option<nat> {
    if o.Some? then Some(o.value.id) else None
  }

  lemma IdsTail(q: seq<TaskOwner>)
    requires q != []
    ensures Ids(q) == [q[0].id] + Ids(q[1..])
  {
  }

  lemma IdsAppend(q: seq<TaskOwner>, o: TaskOwner)
    ensures Ids(q + [o]) == Ids(q) + [o.id]
    ensures Elems(Ids(q + [o])) == Elems(Ids(q)) + {o.id}
  {
    assert Ids(q + [o]) == Ids(q) + [o.id];
  }

  lemma IdsConcat(p: seq<TaskOwner>, q: seq<TaskOwner>)
    ensures Ids(p + q) == Ids(p) + Ids(q)
  {
  }

  lemma SweepStep(kept: seq<nat>, due: seq<nat>, q: seq<nat>, m: map<nat, Control>, now: nat)
    requires q != []
    ensures if IsDue(m, now, q[0]) then
              kept + KeptIds(q[1..], m, now) == kept + KeptIds(q, m, now) &&
              (due + [q[0]]) + DueIds(q[1..], m, now) == due + DueIds(q, m, now)
            else
              (kept + [q[0]]) + KeptIds(q[1..], m, now) == kept + KeptIds(q, m, now) &&
              due + DueIds(q[1..], m, now) == due + DueIds(q, m, now)
  {
    assert [] + KeptIds(q[1..], m, now) == KeptIds(q[1..], m, now);
    assert [] + DueIds(q[1..], m, now) == DueIds(q[1..], m, now);
  }

  /** One more owner looked at: it joins the expired or the kept, and the totals stay. */
  lemma SweepNext(kept: seq<TaskOwner>, expired: seq<TaskOwner>, rest: seq<TaskOwner>, m: map<nat, Control>, now: nat)
    requires rest != []
    ensures var due := IsDue(m, now, rest[0].id);
      var kept' := if due then kept else kept + [rest[0]];
      var expired' := if due then expired + [rest[0]] else expired;
      && Ids(kept') + KeptIds(Ids(rest[1..]), m, now) == Ids(kept) + KeptIds(Ids(rest), m, now)
      && Ids(expired') + DueIds(Ids(rest[1..]), m, now) == Ids(expired) + DueIds(Ids(rest), m, now)
      && Elems(Ids(expired')) == if due then Elems(Ids(expired)) + {rest[0].id} else Elems(Ids(expired))
  {
    IdsTail(rest);
    assert Ids(rest)[1..] == Ids(rest[1..]);
    IdsAppend(kept, rest[0]);
    IdsAppend(expired, rest[0]);
    SweepStep(Ids(kept), Ids(expired), Ids(rest), m, now);
  }

  // ---- facts about marking ----

  lemma MarkTwice(m: map<nat, Control>, a: set<nat>, b: set<nat>, reason: CancelReason)
    ensures MarkAll(MarkAll(m, a, reason), b, reason) == MarkAll(m, a + b, reason)
  {
  }

  lemma MarkNone(m: map<nat, Control>, reason: CancelReason)
    ensures MarkAll(m, {}, reason) == m
  {
  }

  lemma MarkOne(m: map<nat, Control>, a: set<nat>, id: nat, reason: CancelReason)
    requires id in m
    ensures MarkAll(m, a, reason)[id := MarkCancelling(MarkAll(m, a, reason)[id], reason).0] == MarkAll(m, a + {id}, reason)
  {
  }

  lemma SameDue(m: map<nat, Control>, a: set<nat>, reason: CancelReason, now: nat, id: nat)
    ensures IsDue(MarkAll(m, a, reason), now, id) == IsDue(m, now, id)
  {
  }

  lemma {:induction false} SameKept(q: seq<nat>, m: map<nat, Control>, a: set<nat>, reason: CancelReason, now: nat)
    ensures KeptIds(q, MarkAll(m, a, reason), now) == KeptIds(q, m, now)
    ensures DueIds(q, MarkAll(m, a, reason), now) == DueIds(q, m, now)
  {
    if q != [] {
      SameDue(m, a, reason, now, q[0]);
      SameKept(q[1..], m, a, reason, now);
    }
  }

  lemma {:induction false} WithoutAt(q: seq<nat>, i: nat)
    requires i < |q| && q[i] !in q[..i]
    ensures q[..i] + q[i + 1..] == Without(q, q[i])
  {
    if i == 0 {
      assert q[..0] + q[1..] == q[1..];
    } else {
      var t := q[1..];
      assert t[..i - 1] == q[..i][1..];
      assert q[0] in q[..i];
      WithoutAt(t, i - 1);
      assert q[..i] + q[i + 1..] == [q[0]] + (t[..i - 1] + t[i..]);
    }
  }

  function OverdueActive(m: map<nat, Control>, active: set<nat>, now: nat): set<nat> {
    set id | id in active && IsDue(m, now, id) && m[id].lifecycle.DeadlineApplies()
  }

  function DueInDeques(c: Core, now: nat): set<nat> {
    (set id | id in c.queue && IsDue(c.controls, now, id)) + (set id | id in c.ready && IsDue(c.controls, now, id))
  }

  lemma DueElems(c: Core, now: nat)
    ensures Elems(DueIds(c.queue, c.controls, now)) + Elems(DueIds(c.ready, c.controls, now)) == DueInDeques(c, now)
  {
    DueMembers(c.queue, c.controls, now);
    DueMembers(c.ready, c.controls, now);
  }

  /** Sweeping the queue, marking its expired tasks, then sweeping ready: the marks change no verdict. */
  lemma DequesSwept(
      c: Core, first: seq<nat>, second: seq<nat>, ready: seq<nat>,
      s1: map<nat, Control>, s2: map<nat, Control>, now: nat)
    requires first == DueIds(c.queue, c.controls, now) && s1 == MarkAll(c.controls, Elems(first), Deadline)
    requires second == DueIds(c.ready, s1, now) && ready == KeptIds(c.ready, s1, now)
    requires s2 == MarkAll(s1, Elems(second), Deadline)
    ensures second == DueIds(c.ready, c.controls, now) && ready == KeptIds(c.ready, c.controls, now)
    ensures s2 == MarkAll(c.controls, DueInDeques(c, now), Deadline)
  {
    SameKept(c.ready, c.controls, Elems(first), Deadline, now);
    MarkTwice(c.controls, Elems(first), Elems(second), Deadline);
    DueElems(c, now);
  }

  /** Marking what the deques expired and then the active controls still due marks exactly the overdue tasks. */
  lemma SweepMarks(c: Core, due: set<nat>, now: nat)
    requires due == DueInDeques(c, now)
    ensures MarkAll(c.controls, due + OverdueActive(MarkAll(c.controls, due, Deadline), c.active, now), Deadline)
            == MarkAll(c.controls, Overdue(c, now), Deadline)
  {
    var m := c.controls;
    var found := OverdueActive(MarkAll(m, due, Deadline), c.active, now);
    forall id | id in m
      ensures MarkAll(m, due + found, Deadline)[id] == MarkAll(m, Overdue(c, now), Deadline)[id]
    {
      SameDue(m, due, Deadline, now, id);
    }
  }

  function NotStarted(m: map<nat, Control>, ids: set<nat>): set<nat> {
    set id | id in ids && id in m && m[id].lifecycle.AcceptedNotStarted?
  }

  function Grantable(m: map<nat, Control>, ids: set<nat>): set<nat> {
    set id | id in ids && id in m && m[id].lifecycle.AcceptedNotStarted? && m[id].reason.None?
  }

  lemma NotStartedMore(m: map<nat, Control>, ids: set<nat>, id: nat)
    requires id in m && id !in ids
    ensures if m[id].lifecycle.AcceptedNotStarted?
            then NotStarted(m, ids + {id}) == NotStarted(m, ids) + {id}
            else NotStarted(m, ids + {id}) == NotStarted(m, ids)
    ensures if m[id].lifecycle.AcceptedNotStarted? && m[id].reason.None?
            then |Grantable(m, ids + {id})| == |Grantable(m, ids)| + 1
            else |Grantable(m, ids + {id})| == |Grantable(m, ids)|
  {
    if m[id].lifecycle.AcceptedNotStarted? && m[id].reason.None? {
      assert Grantable(m, ids + {id}) == Grantable(m, ids) + {id};
    } else {
      assert Grantable(m, ids + {id}) == Grantable(m, ids);
    }
  }

  /** Marking `ready` first and then the rest of `active` is marking, and counting, what the section says. */
  lemma ShutdownMarks(c: Core, s1: map<nat, Control>)
    requires s1 == MarkAll(c.controls, Elems(c.ready), Shutdown)
    ensures MarkAll(s1, NotStarted(s1, c.active), Shutdown) ==
            MarkAll(c.controls, Elems(c.ready) + Unstarted(c) + {}, Shutdown)
    ensures Grantable(s1, c.active) == Scheduling.Met(c, {})
  {
    MarkTwice(c.controls, Elems(c.ready), NotStarted(s1, c.active), Shutdown);
  }

  class AdmissionScheduler {
    const limits: Limits
    var accepting: bool
    var queue: seq<TaskOwner>
    var ready: seq<TaskOwner>
    var active: map<nat, TaskControl>
    var nextId: nat
    ghost var controls: map<nat, TaskControl>

    ghost predicate OwnerOk(o: TaskOwner, permit: TaskPermit)
      reads this`controls
    {
      o.id in controls && o.control == controls[o.id] && o.deadline == o.control.deadline && o.permit == permit
    }

    ghost predicate Owned(q: seq<TaskOwner>, permit: TaskPermit)
      reads this`controls
    {
      forall i :: 0 <= i < |q| ==> OwnerOk(q[i], permit)
    }

    ghost predicate Valid()
      reads this
    {
      && (forall id :: id in controls ==> controls[id].id == id && id < nextId)
      && Owned(queue, TaskPermit.Queued) && Owned(ready, Active)
      && (forall id :: id in active ==> id in controls && active[id] == controls[id])
    }

    ghost function Controls(): set<TaskControl>
      reads this`controls
    {
      set id | id in controls :: controls[id]
    }

    ghost function States(): map<nat, Control>
      reads this`controls, Controls()
    {
      map id | id in controls :: controls[id].State()
    }

    ghost function View(): Core
      reads this, Controls()
    {
      Core(accepting, Ids(queue), Ids(ready), active.Keys, nextId, States())
    }

    constructor (limits: Limits)
      ensures this.limits == limits && Valid() && View() == EmptyCore
    {
      this.limits := limits;
      accepting, queue, ready, active, nextId, controls := true, [], [], map[], 1, map[];
    }

    /** A new control block under a fresh id. */
    method NewControl(id: nat, deadline: Option<nat>, supervised: bool, accepted: bool) returns (control: TaskControl)
      requires Valid() && id !in controls && id < nextId
      modifies this`controls
      ensures Valid() && fresh(control) && controls == old(controls)[id := control]
      ensures control.id == id && control.deadline == deadline
      ensures States() == old(States())[id :=
                Control(deadline, supervised, if accepted then AcceptedNotStarted else Lifecycle.Queued, None)]
    {
      control := new TaskControl(id, deadline, supervised);
      if accepted {
        control.MarkAccepted();
      }
      controls := controls[id := control];
    }

    /** A task given a slot at once goes to the back of `ready`. */
    method AdmitNow(id: nat, deadline: Option<nat>, supervised: bool) returns (control: TaskControl)
      requires Valid() && id !in controls && id < nextId
      modifies this
      ensures Valid() && fresh(control) && controls == old(controls)[id := control]
      ensures var v := old(View());
              View() == v.(active := v.active + {id}, ready := v.ready + [id],
                           controls := v.controls[id := Control(deadline, supervised, AcceptedNotStarted, None)])
    {
      control := NewControl(id, deadline, supervised, true);
      PutActive(id, control);
      PushReady(TaskOwner(id, deadline, control, Active));
    }

    method PutActive(id: nat, control: TaskControl)
      requires Valid() && id in controls && controls[id] == control
      modifies this`active
      ensures Valid() && View() == old(View()).(active := old(View()).active + {id})
    {
      active := active[id := control];
    }

    method PushReady(owner: TaskOwner)
      requires Valid() && OwnerOk(owner, Active)
      modifies this`ready
      ensures Valid() && View() == old(View()).(ready := old(View()).ready + [owner.id])
    {
      IdsAppend(ready, owner);
      ready := ready + [owner];
    }

    /** A task without a slot goes to the back of the queue. */
    method Enqueue(id: nat, deadline: Option<nat>, supervised: bool) returns (control: TaskControl)
      requires Valid() && id !in controls && id < nextId
      modifies this
      ensures Valid() && fresh(control) && controls == old(controls)[id := control]
      ensures var v := old(View());
              View() == v.(queue := v.queue + [id],
                           controls := v.controls[id := Control(deadline, supervised, Lifecycle.Queued, None)])
    {
      control := NewControl(id, deadline, supervised, false);
      IdsAppend(queue, TaskOwner(id, deadline, control, TaskPermit.Queued));
      queue := queue + [TaskOwner(id, deadline, control, TaskPermit.Queued)];
    }

    /** Takes the next id, `wrapping_add(1).max(1)`. */
    method TakeId() returns (id: nat)
      requires Valid() && nextId < MAX_ID
      modifies this`nextId
      ensures Valid() && id == old(nextId) && id !in controls && id < nextId
      ensures View() == old(View()).(nextId := NextId(old(nextId)))
    {
      id := nextId;
      nextId := NextId(nextId);
    }

    /** The critical section of `submit`. */
    method Admit(deadline: Option<nat>, supervised: bool) returns (r: SubmitResult)
      requires Valid()
      requires nextId < MAX_ID    // fewer than 2^64 submissions
      modifies this
      ensures Valid()
      ensures View() == Admission.Submit(limits, old(View()), deadline, supervised).0
      ensures r.ShutDown? <==> !old(accepting)
      ensures r.QueueFull? <==> old(accepting) && old(|queue| >= limits.queue && (|active| >= limits.active || queue != []))
      ensures !r.InvalidTimeout?
      ensures r.Accepted? ==>
                && fresh(r.control) && controls == old(controls)[old(nextId) := r.control]
                && Joins(old(View()), View(), old(queue == [] && |active| < limits.active), deadline, supervised)
    {
      SubmitAnswers(limits, View(), deadline, supervised);
      assert |View().active| == |active| && |View().queue| == |queue|;
      if !accepting {
        return ShutDown;
      }
      var control;
      var id := TakeId();
      if |active| < limits.active && queue == [] {
        control := AdmitNow(id, deadline, supervised);
      } else {
        if |queue| >= limits.queue {
          return SubmitResult.QueueFull;
        }
        control := Enqueue(id, deadline, supervised);
      }
      return Accepted(control);
    }

    /** `submit` up to the end of its critical section: the deadline is fixed before the lock is taken. */
    method Submit(submitted: nat, timeout: Option<nat>, supervised: bool) returns (r: SubmitResult)
      requires Valid()
      requires nextId < MAX_ID    // fewer than 2^64 submissions
      modifies this
      ensures Valid()
      ensures r.InvalidTimeout? <==> timeout.Some? && submitted + timeout.value > MAX_INSTANT
      ensures r.InvalidTimeout? ==> View() == old(View())
      ensures !r.InvalidTimeout? ==>
                var deadline := if timeout.Some? then Some(submitted + timeout.value) else None;
                && View() == Admission.Submit(limits, old(View()), deadline, supervised).0
                && (r.ShutDown? <==> !old(accepting))
                && (r.QueueFull? <==> old(accepting) && old(|queue| >= limits.queue && (|active| >= limits.active || queue != [])))
                && (r.Accepted? ==> Joins(old(View()), View(), old(queue == [] && |active| < limits.active), deadline, supervised))
      ensures r.Accepted? ==> fresh(r.control) && controls == old(controls)[old(nextId) := r.control]
    {
      var deadline: Option<nat> := None;
      if timeout.Some? {
        if submitted + timeout.value > MAX_INSTANT {
          return InvalidTimeout;
        }
        deadline := Some(submitted + timeout.value);
      }
      r := Admit(deadline, supervised);
    }

    // ---- marking ----

    method Mark(control: TaskControl, why: CancelReason) returns (outcome: CancelOutcome)
      requires Valid() && control.id in controls && controls[control.id] == control
      modifies control
      ensures control.id in old(States())
      ensures States() == old(States())[control.id := Tasks.MarkCancelling(old(States())[control.id], why).0]
      ensures outcome == Tasks.MarkCancelling(old(States())[control.id], why).1
    {
      outcome := control.MarkCancelling(why);
    }

    /** Marks one more control after those in `marked`; the answer is ignored. */
    method MarkMore(control: TaskControl, why: CancelReason, ghost s0: map<nat, Control>, ghost marked: set<nat>)
      requires Valid() && control.id in controls && controls[control.id] == control
      requires States() == MarkAll(s0, marked, why)
      modifies Controls()
      ensures States() == MarkAll(s0, marked + {control.id}, why)
    {
      assert control in Controls();
      var _ := Mark(control, why);
      MarkOne(s0, marked, control.id, why);
    }

    /** The front owner: past its deadline it is marked and expires, otherwise it is retained. */
    method SweepFront(kept: seq<TaskOwner>, expired: seq<TaskOwner>, owner: TaskOwner, permit: TaskPermit, now: nat,
                      ghost s0: map<nat, Control>)
      returns (kept': seq<TaskOwner>, expired': seq<TaskOwner>)
      requires Valid() && OwnerOk(owner, permit) && Owned(kept, permit) && Owned(expired, permit)
      requires States() == MarkAll(s0, Elems(Ids(expired)), Deadline)
      modifies Controls()
      ensures Owned(kept', permit) && Owned(expired', permit)
      ensures kept' == if IsDue(s0, now, owner.id) then kept else kept + [owner]
      ensures expired' == if IsDue(s0, now, owner.id) then expired + [owner] else expired
      ensures States() == MarkAll(s0, Elems(Ids(expired')), Deadline)
    {
      kept', expired' := kept, expired;
      assert owner.control.State() == States()[owner.id];
      if owner.deadline.Some? && owner.deadline.value <= now {
        IdsAppend(expired, owner);
        MarkMore(owner.control, Deadline, s0, Elems(Ids(expired)));
        expired' := expired + [owner];
      } else {
        kept' := kept + [owner];
      }
    }

    /** One deque's loop: the owners in time stay in order, the due ones come out in order and marked. */
    method SweepDeque(q: seq<TaskOwner>, permit: TaskPermit, now: nat)
      returns (kept: seq<TaskOwner>, expired: seq<TaskOwner>)
      requires Valid() && Owned(q, permit)
      modifies Controls()
      ensures Owned(kept, permit) && Owned(expired, permit)
      ensures Ids(kept) == KeptIds(Ids(q), old(States()), now)
      ensures Ids(expired) == DueIds(Ids(q), old(States()), now)
      ensures States() == MarkAll(old(States()), Elems(Ids(expired)), Deadline)
    {
      ghost var s0 := States();
      kept, expired := [], [];
      MarkNone(s0, Deadline);
      var rest := q;
      while rest != []
        invariant Owned(rest, permit) && Owned(kept, permit) && Owned(expired, permit)
        invariant States() == MarkAll(s0, Elems(Ids(expired)), Deadline)
        invariant Ids(kept) + KeptIds(Ids(rest), s0, now) == KeptIds(Ids(q), s0, now)
        invariant Ids(expired) + DueIds(Ids(rest), s0, now) == DueIds(Ids(q), s0, now)
      {
        SweepNext(kept, expired, rest, s0, now);
        kept, expired := SweepFront(kept, expired, rest[0], permit, now, s0);
        rest := rest[1..];
      }
    }

    /** Active tasks past their deadline that have not been told so are marked. */
    method SweepActive(now: nat)
      requires Valid()
      modifies Controls()
      ensures States() == MarkAll(old(States()), OverdueActive(old(States()), active.Keys, now), Deadline)
    {
      ghost var s0 := States();
      ghost var overdue := OverdueActive(s0, active.Keys, now);
      var found: set<nat> := {};
      var left := active.Keys;
      while left != {}
        invariant left <= active.Keys
        invariant found == overdue - left
        invariant States() == s0
        decreases left
      {
        var id :| id in left;
        var control := active[id];
        if control.deadline.Some? && control.deadline.value <= now &&
           (control.lifecycle == AcceptedNotStarted || control.lifecycle == Started) {
          found := found + {id};
        }
        left := left - {id};
      }
      MarkNone(s0, Deadline);
      left := found;
      while left != {}
        invariant left <= found == overdue
        invariant States() == MarkAll(s0, found - left, Deadline)
        decreases left
      {
        var id :| id in left;
        MarkMore(active[id], Deadline, s0, found - left);
        assert found - (left - {id}) == found - left + {id};
        left := left - {id};
      }
      assert found - {} == found;
    }

    // ---- one pass of the manager ----

    method Accept(control: TaskControl)
      requires Valid() && control.id in controls && controls[control.id] == control
      modifies control
      ensures control.id in old(States())
      ensures States() == old(States())[control.id := Tasks.MarkAccepted(old(States())[control.id])]
    {
      control.MarkAccepted();
    }

    /** The queue's head gets an active permit and becomes the last ready owner. */
    method MoveHead() returns (owner: TaskOwner)
      requires Valid() && queue != []
      modifies this`queue, this`ready, this`active
      ensures Valid() && queue == old(queue)[1..]
      ensures owner == old(queue)[0] && owner.id in controls && owner.control == controls[owner.id]
      ensures Ids(old(queue)) == [owner.id] + Ids(queue)
      ensures Ids(ready) == Ids(old(ready)) + [owner.id] && active.Keys == old(active).Keys + {owner.id}
    {
      owner := queue[0];
      IdsTail(queue);
      IdsAppend(ready, owner.Promote());
      queue := queue[1..];
      active := active[owner.id := owner.control];
      ready := ready + [owner.Promote()];
    }

    method PromoteHead()
      requires Valid() && queue != []
      modifies this`queue, this`ready, this`active, Controls()
      ensures Valid() && |queue| == |old(queue)| - 1
      ensures View() == PromoteOne(old(View()))
    {
      var owner := MoveHead();
      Accept(owner.control);
    }

    method PromoteAll()
      requires Valid()
      modifies this`queue, this`ready, this`active, Controls()
      ensures Valid()
      ensures View() == Promote(limits, old(View()))
    {
      ghost var v := View();
      while |active| < limits.active && queue != []
        invariant Valid()
        invariant Promote(limits, View()) == Promote(limits, v)
        decreases |queue|
      {
        assert |View().active| == |active| && |View().queue| == |queue|;
        PromoteHead();
      }
      assert |View().active| == |active| && |View().queue| == |queue|;
    }

    method SweepQueue(now: nat) returns (expired: seq<TaskOwner>)
      requires Valid()
      modifies this`queue, Controls()
      ensures Valid()
      ensures Ids(queue) == KeptIds(Ids(old(queue)), old(States()), now)
      ensures Ids(expired) == DueIds(Ids(old(queue)), old(States()), now)
      ensures States() == MarkAll(old(States()), Elems(Ids(expired)), Deadline)
    {
      var kept;
      kept, expired := SweepDeque(queue, TaskPermit.Queued, now);
      queue := kept;
    }

    method SweepReady(now: nat) returns (expired: seq<TaskOwner>)
      requires Valid()
      modifies this`ready, Controls()
      ensures Valid()
      ensures Ids(ready) == KeptIds(Ids(old(ready)), old(States()), now)
      ensures Ids(expired) == DueIds(Ids(old(ready)), old(States()), now)
      ensures States() == MarkAll(old(States()), Elems(Ids(expired)), Deadline)
    {
      var kept;
      kept, expired := SweepDeque(ready, Active, now);
      ready := kept;
    }

    /** The two `while let` loops: both deques are swept at `now`. */
    method SweepDeques(now: nat) returns (expired: seq<TaskOwner>)
      requires Valid()
      modifies this`queue, this`ready, Controls()
      ensures Valid()
      ensures Ids(queue) == KeptIds(Ids(old(queue)), old(States()), now)
      ensures Ids(ready) == KeptIds(Ids(old(ready)), old(States()), now)
      ensures Ids(expired) == DueIds(Ids(old(queue)), old(States()), now) + DueIds(Ids(old(ready)), old(States()), now)
      ensures States() == MarkAll(old(States()), DueInDeques(old(View()), now), Deadline)
    {
      ghost var v := View();
      var first := SweepQueue(now);
      ghost var s1 := States();
      var second := SweepReady(now);
      DequesSwept(v, Ids(first), Ids(second), Ids(ready), s1, States(), now);
      IdsConcat(first, second);
      expired := first + second;
    }

    /** Both deques and the active controls are swept at `now`. */
    method SweepAll(now: nat) returns (expired: seq<TaskOwner>)
      requires Valid()
      modifies this`queue, this`ready, Controls()
      ensures Valid()
      ensures View() == Sweep(old(View()), now)
      ensures Ids(expired) == DueIds(Ids(old(queue)), old(States()), now) + DueIds(Ids(old(ready)), old(States()), now)
    {
      ghost var v := View();
      ghost var due := DueInDeques(v, now);
      expired := SweepDeques(now);
      SweepActive(now);
      MarkTwice(v.controls, due, OverdueActive(MarkAll(v.controls, due, Deadline), v.active, now), Deadline);
      SweepMarks(v, due, now);
    }

    method TakeReady() returns (dispatch: Option<TaskOwner>)
      requires Valid()
      modifies this`ready
      ensures Valid()
      ensures View() == PopReady(old(View())).0 && OwnerId(dispatch) == PopReady(old(View())).1
      ensures dispatch.Some? ==> OwnerOk(dispatch.value, Active)
    {
      dispatch := None;
      if ready != [] {
        dispatch := Some(ready[0]);
        IdsTail(ready);
        assert Ids(ready)[1..] == Ids(ready[1..]);
        ready := ready[1..];
      }
    }

    /** The first critical section of a `manager_loop` pass. */
    method ManagerPass(now: nat) returns (expired: seq<TaskOwner>, dispatch: Option<TaskOwner>, shouldExit: bool)
      requires Valid()
      modifies this`queue, this`ready, this`active, Controls()
      ensures Valid()
      ensures View() == Pass(limits, old(View()), now).0
      ensures OwnerId(dispatch) == Pass(limits, old(View()), now).1
      ensures dispatch.Some? ==> OwnerOk(dispatch.value, Active)
      ensures Ids(expired) == DueIds(Ids(old(queue)), old(States()), now) + DueIds(Ids(old(ready)), old(States()), now)
      ensures shouldExit <==> !View().accepting && Drained(View())
    {
      expired := SweepAll(now);
      PromoteAll();
      dispatch := TakeReady();
      shouldExit := !accepting && |active| == 0 && queue == [] && ready == [];
      assert |active| == |active.Keys| && |Ids(queue)| == |queue| && |Ids(ready)| == |ready|;
    }

    // ---- the earliest deadline ----

    method MinOfOwners(q: seq<TaskOwner>, from: Option<nat>) returns (u: Option<nat>)
      ensures u == LeastOf(q, from)
    {
      u := from;
      var rest := q;
      while rest != []
        invariant LeastOf(rest, u) == LeastOf(q, from)
      {
        u := Least(u, rest[0].deadline);
        rest := rest[1..];
      }
    }

    /** `next_deadline`: the least deadline of what waits and of what is active and still enforceable. */
    method NextDeadline() returns (u: Option<nat>)
      requires Valid()
      ensures IsNextDeadline(View(), u)
    {
      u := MinOfOwners(queue, None);
      u := MinOfOwners(ready, u);
      ghost var waiting := u;
      ghost var done: set<nat> := {};
      var left := active.Keys;
      while left != {}
        invariant left <= active.Keys && done == active.Keys - left
        invariant u == waiting || exists id :: id in done && Enforceable(id) && active[id].deadline == u
        invariant Below(u, waiting)
        invariant forall id :: id in done && Enforceable(id) ==> Below(u, active[id].deadline)
        decreases left
      {
        var id :| id in left;
        var control := active[id];
        if control.lifecycle == AcceptedNotStarted || control.lifecycle == Started {
          u := Least(u, control.deadline);
        }
        left := left - {id};
        done := done + {id};
      }
      Collect(waiting, u);
    }

    ghost predicate Enforceable(id: nat)
      requires Valid()
      reads this, Controls()
    {
      id in active && active[id].State().lifecycle.DeadlineApplies()
    }

    lemma Collect(waiting: Option<nat>, u: Option<nat>)
      requires Valid()
      requires waiting == LeastOf(ready, LeastOf(queue, None))
      requires u == waiting || exists id :: id in active && Enforceable(id) && active[id].deadline == u
      requires Below(u, waiting)
      requires forall id :: id in active && Enforceable(id) ==> Below(u, active[id].deadline)
      ensures IsNextDeadline(View(), u)
    {
      var v := View();
      LeastOfWaiting(queue, ready);
      forall id | Enforced(v, id)
        ensures Below(u, v.controls[id].deadline)
      {
        if id in v.queue {
          var i :| 0 <= i < |queue| && v.queue[i] == id;
          assert Below(waiting, queue[i].deadline);
        } else if id in v.ready {
          var i :| 0 <= i < |ready| && v.ready[i] == id;
          assert Below(waiting, ready[i].deadline);
        } else {
          assert Enforceable(id);
        }
      }
      if u.Some? {
        FindWitness(waiting, u);
      }
    }

    lemma FindWitness(waiting: Option<nat>, u: Option<nat>)
      requires Valid() && u.Some?
      requires waiting == LeastOf(ready, LeastOf(queue, None))
      requires u == waiting || exists id :: id in active && Enforceable(id) && active[id].deadline == u
      ensures exists id :: Enforced(View(), id) && View().controls[id].deadline == u
    {
      var v := View();
      LeastOfWaiting(queue, ready);
      if i :| 0 <= i < |queue| && queue[i].deadline == u {
        assert v.queue[i] in v.queue && Enforced(v, v.queue[i]);
      } else if i :| 0 <= i < |ready| && ready[i].deadline == u {
        assert v.ready[i] in v.ready && Enforced(v, v.ready[i]);
      } else {
        var id :| id in active && Enforceable(id) && active[id].deadline == u;
        assert Enforced(v, id);
      }
    }

    // ---- cancellation and release ----

    /** The position of an id in a deque. */
    method Position(q: seq<TaskOwner>, id: nat) returns (found: Option<nat>)
      ensures found.Some? ==> found.value < |q| && q[found.value].id == id && id !in Ids(q)[..found.value]
      ensures found.None? <==> id !in Ids(q)
    {
      var i := 0;
      while i < |q|
        invariant i <= |q| && id !in Ids(q)[..i]
      {
        if q[i].id == id {
          assert Ids(q)[i] == id;
          return Some(i);
        }
        assert Ids(q)[..i + 1] == Ids(q)[..i] + [q[i].id];
        i := i + 1;
      }
      assert Ids(q)[..|q|] == Ids(q);
      return None;
    }

    /** `VecDeque::remove(index)`. */
    method RemoveAt(q: seq<TaskOwner>, i: nat, permit: TaskPermit) returns (rest: seq<TaskOwner>)
      requires i < |q| && q[i].id !in Ids(q)[..i] && Owned(q, permit)
      ensures Owned(rest, permit) && Ids(rest) == Without(Ids(q), q[i].id)
    {
      rest := q[..i] + q[i + 1..];
      WithoutAt(Ids(q), i);
      assert Ids(rest) == Ids(q)[..i] + Ids(q)[i + 1..];
    }

    /** Takes the owner of `id` out of the deque that holds it, the queue before `ready`. */
    method TakeOwner(id: nat) returns (owner: Option<TaskOwner>)
      requires Valid()
      modifies this`queue, this`ready
      ensures Valid()
      ensures var q := Ids(old(queue)); var r := Ids(old(ready));
              && Ids(queue) == (if id in q then Without(q, id) else q)
              && Ids(ready) == (if id !in q && id in r then Without(r, id) else r)
              && (owner.Some? <==> id in q || id in r)
      ensures owner.Some? ==> owner.value.id == id && id in controls && owner.value.control == controls[id]
    {
      owner := None;
      var i := Position(queue, id);
      if i.Some? {
        owner := Some(queue[i.value]);
        var rest := RemoveAt(queue, i.value, TaskPermit.Queued);
        queue := rest;
      } else {
        var j := Position(ready, id);
        if j.Some? {
          owner := Some(ready[j.value]);
          var rest := RemoveAt(ready, j.value, Active);
          ready := rest;
        }
      }
    }

    /** The critical section of `request_cancel`; an owner is returned when the caller must close it. */
    method RequestCancel(control: TaskControl, reason: CancelReason)
      returns (outcome: CancelOutcome, owner: Option<TaskOwner>)
      requires Valid() && control.id in controls && controls[control.id] == control
      modifies this`queue, this`ready, control
      ensures Valid()
      ensures var r := Cancel(old(View()), control.id, reason);
              View() == r.core && outcome == r.outcome && (owner.Some? <==> r.owned)
      ensures owner.Some? ==> owner.value.id == control.id && owner.value.control == control
    {
      assert control.State() == States()[control.id];
      if control.lifecycle.Terminal() {
        return AlreadyTerminal, None;
      }
      ghost var before := States();
      owner := TakeOwner(control.id);
      assert States() == before;
      outcome := Mark(control, reason);
    }

    /** Dropping an `ActivePermit`. */
    method ReleaseActive(id: nat)
      requires Valid()
      modifies this`active
      ensures Valid() && View() == Release(old(View()), id)
    {
      active := active - {id};
    }

    // ---- shutdown and failed starts ----

    /** Every ready owner is marked, in order. */
    method MarkReady(q: seq<TaskOwner>)
      requires Valid() && Owned(q, Active)
      modifies Controls()
      ensures States() == MarkAll(old(States()), Elems(Ids(q)), Shutdown)
    {
      ghost var s0 := States();
      MarkNone(s0, Shutdown);
      var i := 0;
      assert Elems(Ids(q)[..0]) == {};
      while i < |q|
        invariant i <= |q|
        invariant States() == MarkAll(s0, Elems(Ids(q)[..i]), Shutdown)
      {
        MarkMore(q[i].control, Shutdown, s0, Elems(Ids(q)[..i]));
        assert Ids(q)[..i + 1] == Ids(q)[..i] + [q[i].id];
        assert Elems(Ids(q)[..i + 1]) == Elems(Ids(q)[..i]) + {q[i].id};
        i := i + 1;
      }
      assert Ids(q)[..|q|] == Ids(q);
    }

    /** Active tasks not yet started are cancelled; the count is of those whose request was granted. */
    method MarkUnstarted() returns (granted: nat)
      requires Valid()
      modifies Controls()
      ensures States() == MarkAll(old(States()), NotStarted(old(States()), active.Keys), Shutdown)
      ensures granted == |Grantable(old(States()), active.Keys)|
    {
      ghost var s0 := States();
      ghost var all := active.Keys;
      granted := 0;
      MarkNone(s0, Shutdown);
      var left := active.Keys;
      assert all - left == {};
      assert NotStarted(s0, {}) == {} && Grantable(s0, {}) == {};
      while left != {}
        invariant left <= all == active.Keys
        invariant States() == MarkAll(s0, NotStarted(s0, all - left), Shutdown)
        invariant granted == |Grantable(s0, all - left)|
        decreases left
      {
        var id :| id in left;
        var control := active[id];
        ghost var done := all - left;
        assert all - (left - {id}) == done + {id};
        NotStartedMore(s0, done, id);
        assert control.State() == s0[id];
        if control.lifecycle == AcceptedNotStarted {
          var outcome := MarkCounted(control, s0, NotStarted(s0, done));
          if outcome == Requested {
            granted := granted + 1;
          }
        }
        left := left - {id};
      }
      assert all - {} == all;
    }

    method MarkCounted(control: TaskControl, ghost s0: map<nat, Control>, ghost marked: set<nat>) returns (outcome: CancelOutcome)
      requires Valid() && control.id in controls && controls[control.id] == control
      requires States() == MarkAll(s0, marked, Shutdown) && control.id !in marked
      modifies Controls()
      ensures control.id in s0
      ensures States() == MarkAll(s0, marked + {control.id}, Shutdown)
      ensures outcome == Tasks.MarkCancelling(s0[control.id], Shutdown).1
    {
      assert control in Controls();
      outcome := Mark(control, Shutdown);
      MarkOne(s0, marked, control.id, Shutdown);
    }

    method MarkForShutdown(q: seq<TaskOwner>, ghost v: Core) returns (granted: nat)
      requires Valid() && Owned(q, Active)
      requires v.controls == States() && v.active == active.Keys && v.ready == Ids(q)
      modifies Controls()
      ensures States() == BeginShutdown(v, {}).controls
      ensures granted == |Scheduling.Met(v, {})|
    {
      MarkReady(q);
      ShutdownMarks(v, States());
      granted := MarkUnstarted();
    }

    /**
      The first critical section of `shutdown`, with no task starting in the middle of it.
      The owners taken out are closed by the caller afterwards.
     */
    method ShutdownSection() returns (drainedQueue: seq<TaskOwner>, drainedReady: seq<TaskOwner>, accepted: nat)
      requires Valid()
      modifies this`accepting, this`queue, this`ready, Controls()
      ensures Valid()
      ensures View() == BeginShutdown(old(View()), {})
      ensures drainedQueue == old(queue) && drainedReady == old(ready)
      ensures accepted == |old(ready)| + |Scheduling.Met(old(View()), {})|
    {
      ghost var v := View();
      accepting := false;
      drainedQueue, queue := queue, [];
      drainedReady, ready := ready, [];
      var granted := MarkForShutdown(drainedReady, v);
      accepted := |drainedReady| + granted;
      assert Ids(queue) == [] && Ids(ready) == [];
    }

    /** The drain of `fail_pending`: whatever waits is handed to the caller to be failed. */
    method FailPendingSection() returns (pending: seq<TaskOwner>)
      requires Valid()
      modifies this`queue, this`ready
      ensures Valid() && View() == FailPending(old(View()))
      ensures pending == old(queue) + old(ready)
    {
      pending := queue + ready;
      queue, ready := [], [];
      assert Ids(queue) == [] && Ids(ready) == [];
    }
  }

  function Least(a: Option<nat>, b: Option<nat>): Option<nat> {
    if a.None? then b
    else if b.None? || a.value <= b.value then a
    else b
  }

  /** `u` is no later than `d`; no deadline is later than every deadline. */
  predicate Below(u: Option<nat>, d: Option<nat>) {
    d.Some? ==> u.Some? && u.value <= d.value
  }

  function LeastOf(q: seq<TaskOwner>, from: Option<nat>): Option<nat> {
    if q == [] then from else LeastOf(q[1..], Least(from, q[0].deadline))
  }

  lemma {:induction false} LeastOfIsLeast(q: seq<TaskOwner>, from: Option<nat>)
    ensures var u := LeastOf(q, from);
            && Below(u, from)
            && (forall i :: 0 <= i < |q| ==> Below(u, q[i].deadline))
            && (u == from || exists i :: 0 <= i < |q| && q[i].deadline == u)
  {
    if q != [] {
      LeastOfIsLeast(q[1..], Least(from, q[0].deadline));
      var u := LeastOf(q, from);
      if u != from && u != q[0].deadline {
        var i :| 0 <= i < |q[1..]| && q[1..][i].deadline == u;
        assert q[i + 1].deadline == u;
      }
      forall i | 0 <= i < |q|
        ensures Below(u, q[i].deadline)
      {
        if i > 0 {
          assert q[i] == q[1..][i - 1];
        }
      }
    }
  }

  lemma LeastOfWaiting(queue: seq<TaskOwner>, ready: seq<TaskOwner>)
    ensures var u := LeastOf(ready, LeastOf(queue, None));
            && (forall i :: 0 <= i < |queue| ==> Below(u, queue[i].deadline))
            && (forall i :: 0 <= i < |ready| ==> Below(u, ready[i].deadline))
            && (u.Some? ==> (exists i :: 0 <= i < |queue| && queue[i].deadline == u)
                            || (exists i :: 0 <= i < |ready| && ready[i].deadline == u))
  {
    LeastOfIsLeast(queue, None);
    LeastOfIsLeast(ready, LeastOf(queue, None));
  }
}
