/**
  The critical sections of the admission scheduler (`AdmissionScheduler`,
  src/executor.rs) as functions on the data its lock protects.

  A queued or ready task is named by its id; `controls` holds the control block of
  every task ever accepted.
 */
module Admission {
  import opened Wrappers
  import opened Sequences
  import opened Tasks

  const MAX_ID: nat := 0xFFFF_FFFF_FFFF_FFFF

  datatype Limits = Limits(active: nat, queue: nat)

  datatype Core = Core(
    accepting: bool,
    queue: seq<nat>,
    ready: seq<nat>,
    active: set<nat>,
    nextId: nat,
    controls: map<nat, Control>)

  datatype Admitted = RejectedShutdown | QueueFull | Direct(id: nat) | Enqueued(id: nat)

  const EmptyCore := Core(true, [], [], {}, 1, map[])

  /** `next_id.wrapping_add(1).max(1)` on a `u64`. */
  function NextId(n: nat): nat {
    if n >= MAX_ID then 1 else n + 1
  }

  predicate SlotFree(limits: Limits, c: Core) {
    |c.active| < limits.active
  }

  function Submit(limits: Limits, c: Core, deadline: Option<nat>, supervised: bool): (Core, Admitted) {
    if !c.accepting then (c, RejectedShutdown)
    else
      var id := c.nextId;
      var c1 := c.(nextId := NextId(id));
      if SlotFree(limits, c) && c.queue == [] then
        (c1.(active := c.active + {id}, ready := c.ready + [id],
             controls := c.controls[id := Control(deadline, supervised, AcceptedNotStarted, None)]),
         Direct(id))
      else if |c.queue| >= limits.queue then (c1, QueueFull)
      else
        (c1.(queue := c.queue + [id],
             controls := c.controls[id := Control(deadline, supervised, Queued, None)]),
         Enqueued(id))
  }

  /**
    When `submit` gives which answer, and where the task then is: refused after shutdown,
    given a slot over an empty queue, queued while there is room, refused otherwise.
   */
  lemma SubmitAnswers(limits: Limits, c: Core, deadline: Option<nat>, supervised: bool)
    requires c.nextId < MAX_ID
    ensures var (c', admitted) := Submit(limits, c, deadline, supervised);
            && (admitted.RejectedShutdown? <==> !c.accepting)
            && (admitted.QueueFull? <==>
                  c.accepting && |c.queue| >= limits.queue && (|c.active| >= limits.active || c.queue != []))
            && (admitted.Direct? <==> c.accepting && c.queue == [] && |c.active| < limits.active)
            && (admitted.Direct? || admitted.Enqueued? ==> Joins(c, c', admitted.Direct?, deadline, supervised))
            && (admitted.RejectedShutdown? || admitted.QueueFull? ==> c' == c.(nextId := c'.nextId))
  {
  }

  /** One new task under the next id, at the back of `ready` with a slot or at the back of the queue. */
  predicate Joins(c: Core, c': Core, direct: bool, deadline: Option<nat>, supervised: bool) {
    var id := c.nextId;
    && c'.accepting == c.accepting && c'.nextId == id + 1
    && c'.queue == (if direct then c.queue else c.queue + [id])
    && c'.ready == (if direct then c.ready + [id] else c.ready)
    && c'.active == (if direct then c.active + {id} else c.active)
    && c'.controls == c.controls[id := Control(deadline, supervised, if direct then AcceptedNotStarted else Queued, None)]
  }

  predicate IsDue(controls: map<nat, Control>, now: nat, id: nat) {
    id in controls && controls[id].Due(now)
  }

  function DueIds(q: seq<nat>, controls: map<nat, Control>, now: nat): seq<nat> {
    if q == [] then []
    else (if IsDue(controls, now, q[0]) then [q[0]] else []) + DueIds(q[1..], controls, now)
  }

  function KeptIds(q: seq<nat>, controls: map<nat, Control>, now: nat): seq<nat> {
    if q == [] then []
    else (if IsDue(controls, now, q[0]) then [] else [q[0]]) + KeptIds(q[1..], controls, now)
  }

  /** `mark_cancelling(reason)` on every control in `ids`. */
  function MarkAll(controls: map<nat, Control>, ids: set<nat>, reason: CancelReason): map<nat, Control> {
    map id | id in controls ::
      if id in ids then MarkCancelling(controls[id], reason).0 else controls[id]
  }

  /** The tasks a pass at `now` cancels: due in either deque, or due and still enforceable while active. */
  function Overdue(c: Core, now: nat): set<nat> {
    (set id | id in c.queue && IsDue(c.controls, now, id)) +
    (set id | id in c.ready && IsDue(c.controls, now, id)) +
    (set id | id in c.active && IsDue(c.controls, now, id) && c.controls[id].lifecycle.DeadlineApplies())
  }

  function Sweep(c: Core, now: nat): Core {
    c.(queue := KeptIds(c.queue, c.controls, now),
       ready := KeptIds(c.ready, c.controls, now),
       controls := MarkAll(c.controls, Overdue(c, now), Deadline))
  }

  predicate CanPromote(limits: Limits, c: Core) {
    SlotFree(limits, c) && c.queue != []
  }

  function PromoteOne(c: Core): Core
    requires c.queue != []
  {
    var id := c.queue[0];
    c.(queue := c.queue[1..],
       ready := c.ready + [id],
       active := c.active + {id},
       controls := if id in c.controls then c.controls[id := MarkAccepted(c.controls[id])] else c.controls)
  }

  function Promote(limits: Limits, c: Core): Core
    decreases |c.queue|
  {
    if CanPromote(limits, c) then Promote(limits, PromoteOne(c)) else c
  }

  function PopReady(c: Core): (Core, Option<nat>) {
    if c.ready == [] then (c, None) else (c.(ready := c.ready[1..]), Some(c.ready[0]))
  }

  /** The first locked section of one `manager_loop` pass. */
  function Pass(limits: Limits, c: Core, now: nat): (Core, Option<nat>) {
    PopReady(Promote(limits, Sweep(c, now)))
  }

  predicate Drained(c: Core) {
    c.active == {} && c.queue == [] && c.ready == []
  }

  predicate Dispatchable(limits: Limits, c: Core) {
    c.ready != [] || (c.queue != [] && SlotFree(limits, c))
  }

  /** The tasks whose deadlines `next_deadline` looks at. */
  predicate Enforced(c: Core, id: nat) {
    && id in c.controls
    && (id in c.queue || id in c.ready || (id in c.active && c.controls[id].lifecycle.DeadlineApplies()))
  }

  /** `u` is what `next_deadline` returns: the least enforced deadline, if any. */
  ghost predicate IsNextDeadline(c: Core, u: Option<nat>) {
    match u
    case None => forall id :: Enforced(c, id) ==> c.controls[id].deadline.None?
    case Some(d) =>
      && (exists id :: Enforced(c, id) && c.controls[id].deadline == Some(d))
      && (forall id :: Enforced(c, id) && c.controls[id].deadline.Some? ==> d <= c.controls[id].deadline.value)
  }

  datatype Removal = Removal(core: Core, outcome: CancelOutcome, owned: bool)

  /** `request_cancel` under the lock; `owned` when the caller took the owner out of a deque. */
  function Cancel(c: Core, id: nat, reason: CancelReason): Removal
    requires id in c.controls
  {
    var (control, outcome) := MarkCancelling(c.controls[id], reason);
    if c.controls[id].lifecycle.Terminal() then Removal(c, AlreadyTerminal, false)
    else
      var marked := c.(controls := c.controls[id := control]);
      if id in c.queue then Removal(marked.(queue := Without(c.queue, id)), outcome, true)
      else if id in c.ready then Removal(marked.(ready := Without(c.ready, id)), outcome, true)
      else Removal(marked, outcome, false)
  }

  function Release(c: Core, id: nat): Core {
    c.(active := c.active - {id})
  }

  /** Active tasks outside `ready` that the first shutdown section finds not yet started. */
  function Unstarted(c: Core): set<nat> {
    set id | id in c.active && id !in c.ready && id in c.controls && c.controls[id].lifecycle.AcceptedNotStarted?
  }

  /**
    The first locked section of `shutdown`.  The check `state() == AcceptedNotStarted`
    and the following mark take the task lock twice; `late` are tasks that started
    in between and are marked all the same.
   */
  function BeginShutdown(c: Core, late: set<nat>): Core {
    c.(accepting := false, queue := [], ready := [],
       controls := MarkAll(c.controls, Elems(c.ready) + Unstarted(c) + late, Shutdown))
  }

  function FailPending(c: Core): Core {
    c.(queue := [], ready := [])
  }

  // ---- membership facts ----

  lemma {:induction false} KeptMembers(q: seq<nat>, controls: map<nat, Control>, now: nat)
    ensures forall y :: y in KeptIds(q, controls, now) <==> y in q && !IsDue(controls, now, y)
  {
    if q != [] {
      KeptMembers(q[1..], controls, now);
      assert q == [q[0]] + q[1..];
    }
  }

  lemma {:induction false} DueMembers(q: seq<nat>, controls: map<nat, Control>, now: nat)
    ensures forall y :: y in DueIds(q, controls, now) <==> y in q && IsDue(controls, now, y)
  {
    if q != [] {
      DueMembers(q[1..], controls, now);
      assert q == [q[0]] + q[1..];
    }
  }

  lemma {:induction false} KeptIncreasing(q: seq<nat>, controls: map<nat, Control>, now: nat)
    requires Increasing(q)
    ensures Increasing(KeptIds(q, controls, now))
    ensures |KeptIds(q, controls, now)| <= |q|
  {
    if q != [] {
      var rest := KeptIds(q[1..], controls, now);
      IncreasingTail(q);
      KeptIncreasing(q[1..], controls, now);
      KeptMembers(q[1..], controls, now);
      if !IsDue(controls, now, q[0]) {
        IncreasingPrepend(q[0], rest);
      } else {
        assert [] + rest == rest;
      }
    }
  }
}
