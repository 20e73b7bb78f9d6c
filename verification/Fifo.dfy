/**
  First in, first out: ids enter `active` in increasing order and are dispatched in
  increasing order, whatever expiries, cancellations and releases come between.
 */
module Fifo {
  import opened Sequences
  import opened Tasks
  import opened Admission
  import opened Scheduling
  import opened Conservation

  predicate Ahead(xs: seq<nat>, ys: seq<nat>) {
    forall x, y :: x in xs && y in ys ==> x < y
  }

  predicate Within(xs: seq<nat>, ys: seq<nat>) {
    forall x :: x in xs ==> x in ys
  }

  predicate InOrder(c: Core, admitted: seq<nat>, dispatched: seq<nat>) {
    && Increasing(admitted) && Increasing(dispatched)
    && Ahead(admitted, c.queue) && Ahead(dispatched, c.ready)
    && Within(c.ready, admitted) && Within(dispatched, admitted)
    && (forall x :: x in admitted ==> x in c.controls)
  }

  predicate Fair(s: State) {
    InOrder(s.core, s.admitted, s.dispatched)
  }

  /** Taking tasks out of the deques cannot break the order. */
  lemma RemovalKeepsOrder(s: State, s': State)
    requires Fair(s)
    requires s'.admitted == s.admitted && s'.dispatched == s.dispatched
    requires s.core.controls.Keys <= s'.core.controls.Keys
    requires Within(s'.core.queue, s.core.queue) && Within(s'.core.ready, s.core.ready)
    ensures Fair(s')
  {
  }

  lemma SubmittedKeepsOrder(s: State, s': State, a: nat, direct: bool, control: Control)
    requires Known(s.core) && Fair(s) && NewTask(s, s', a, direct, control)
    ensures Fair(s')
  {
    var id := s.core.nextId;
    if direct {
      IncreasingAppend(s.admitted, id);
      assert forall x :: x in s'.core.ready <==> x in s.core.ready || x == id;
    } else {
      assert forall x :: x in s'.core.queue <==> x in s.core.queue || x == id;
    }
  }

  lemma BehindIfFair(s: State)
    requires Fair(s)
    ensures QueueBehind(s.core)
  {
    if s.core.queue != [] {
      assert s.core.queue[0] in s.core.queue;
    }
  }

  lemma PromoteOneKeepsOrder(s: State)
    requires Known(s.core) && Increasing(s.core.queue) && Fair(s) && s.core.queue != []
    ensures Fair(PromoteOneState(s))
  {
    var id := s.core.queue[0];
    IncreasingTail(s.core.queue);
    assert id in s.core.queue;
    assert forall x :: x in s.admitted ==> x < id;
    IncreasingAppend(s.admitted, id);
    var s' := PromoteOneState(s);
    assert forall x :: x in s'.dispatched ==> x in s.admitted && x < id;
  }

  lemma {:induction false} PromoteKeepsOrder(limits: Limits, s: State)
    requires Conserved(limits, s) && Fair(s)
    ensures Conserved(limits, PromoteState(limits, s)) && Fair(PromoteState(limits, s))
    decreases |s.core.queue|
  {
    BehindIfFair(s);
    PromoteKeeps(limits, s);
    if CanPromote(limits, s.core) {
      PromoteOneKeeps(limits, s);
      PromoteOneKeepsOrder(s);
      PromoteKeepsOrder(limits, PromoteOneState(s));
    }
  }

  lemma DispatchKeepsOrder(s: State)
    requires Increasing(s.core.ready) && Fair(s)
    ensures Fair(DispatchState(s))
  {
    if s.core.ready != [] {
      var id := s.core.ready[0];
      IncreasingTail(s.core.ready);
      assert id in s.core.ready;
      IncreasingAppend(s.dispatched, id);
    }
  }

  lemma SweepKeepsOrder(s: State)
    requires Fair(s)
    ensures Fair(SweepState(s))
  {
    KeptMembers(s.core.queue, s.core.controls, s.now);
    KeptMembers(s.core.ready, s.core.controls, s.now);
    RemovalKeepsOrder(s, SweepState(s));
  }

  lemma PassKeepsOrder(limits: Limits, s: State)
    requires Conserved(limits, s) && Fair(s)
    ensures Conserved(limits, PassState(limits, s)) && Fair(PassState(limits, s))
  {
    SweepKeeps(limits, s);
    SweepKeepsOrder(s);
    PromoteKeepsOrder(limits, SweepState(s));
    var s2 := PromoteState(limits, SweepState(s));
    DispatchKeeps(limits, s2);
    DispatchKeepsOrder(s2);
  }

  lemma CancelKeepsOrder(s: State, id: nat, reason: CancelReason)
    requires Ordered(s.core) && Fair(s) && HasPhase(s, id)
    ensures Fair(ApplyCancel(s, id, reason))
  {
    WithoutMembers(s.core.queue, id);
    WithoutMembers(s.core.ready, id);
    RemovalKeepsOrder(s, ApplyCancel(s, id, reason));
  }
}
