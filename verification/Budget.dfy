/**
  Counting reservations (`reserve` and `BudgetGuard`, src/budget.rs) on one atomic counter.
 */
module Budget {
  datatype Thread = Starting | Trying(active: nat) | Reserved | Exhausted(seen: nat) | Released

  datatype State = State(counter: nat, threads: map<nat, Thread>)

  datatype Event =
    | Call(t: nat)
    | Load(t: nat)
    | Attempt(t: nat, spurious: bool)   // the bound check, then `compare_exchange_weak`, which may fail spuriously
    | DropGuard(t: nat)

  predicate Enabled(s: State, e: Event) {
    match e
    case Call(t) => t !in s.threads
    case Load(t) => t in s.threads && s.threads[t].Starting?
    case Attempt(t, _) => t in s.threads && s.threads[t].Trying?
    case DropGuard(t) => t in s.threads && s.threads[t].Reserved?
  }

  function Put(s: State, t: nat, at: Thread): State {
    s.(threads := s.threads[t := at])
  }

  function Apply(max: nat, s: State, e: Event): State
    requires Enabled(s, e)
  {
    match e
    case Call(t) => Put(s, t, Starting)
    case Load(t) => Put(s, t, Trying(s.counter))
    case Attempt(t, spurious) =>
      var active := s.threads[t].active;
      if active >= max then Put(s, t, Exhausted(active))
      else if s.counter == active && !spurious then Put(s, t, Reserved).(counter := active + 1)
      else Put(s, t, Trying(s.counter))
    case DropGuard(t) => Put(s, t, Released).(counter := if s.counter == 0 then 0xFFFF_FFFF_FFFF_FFFF else s.counter - 1)
  }

  ghost predicate IsRun(max: nat, states: seq<State>, events: seq<Event>) {
    && |states| == |events| + 1
    && states[0] == State(0, map[])
    && forall i {:trigger events[i]} :: 0 <= i < |events| ==>
         Enabled(states[i], events[i]) && states[i + 1] == Apply(max, states[i], events[i])
  }

  function Guards(threads: map<nat, Thread>): set<nat> {
    set t | t in threads && threads[t].Reserved?
  }

  ghost predicate Inv(max: nat, s: State) {
    s.counter == |Guards(s.threads)| <= max
  }

  lemma StepKeepsInv(max: nat, s: State, e: Event)
    requires Inv(max, s) && Enabled(s, e)
    ensures Inv(max, Apply(max, s, e))
  {
    var s' := Apply(max, s, e);
    var at := s'.threads[e.t];
    assert Guards(s'.threads) == (if at.Reserved? then Guards(s.threads) + {e.t} else Guards(s.threads) - {e.t});
    if e.DropGuard? {
      assert e.t in Guards(s.threads);
    } else {
      assert e.t !in Guards(s.threads);
    }
  }

  lemma {:induction false} RunKeepsInv(max: nat, states: seq<State>, events: seq<Event>, i: nat)
    requires IsRun(max, states, events) && i < |states|
    ensures Inv(max, states[i])
  {
    if i > 0 {
      RunKeepsInv(max, states, events, i - 1);
      StepKeepsInv(max, states[i - 1], events[i - 1]);
    }
  }

  /** The counter is the number of live guards, never above its maximum. */
  lemma CounterIsGuards(max: nat, states: seq<State>, events: seq<Event>, i: nat)
    requires IsRun(max, states, events) && i < |states|
    ensures states[i].counter == |Guards(states[i].threads)| <= max
  {
    RunKeepsInv(max, states, events, i);
  }

  /** A refusal is honest: the value it was based on was the counter at an earlier moment, with every slot taken. */
  lemma {:induction false} RefusalSawFullBudget(max: nat, states: seq<State>, events: seq<Event>, i: nat, t: nat)
    requires IsRun(max, states, events) && i < |states|
    requires t in states[i].threads && (states[i].threads[t].Exhausted? || states[i].threads[t].Trying?)
    ensures var seen := if states[i].threads[t].Exhausted? then states[i].threads[t].seen else states[i].threads[t].active;
            exists j :: 0 <= j <= i && seen == |Guards(states[j].threads)|
  {
    var s, e := states[i - 1], events[i - 1];
    assert states[i] == Apply(max, s, e);
    if t in s.threads && (s.threads[t].Exhausted? || s.threads[t].Trying?) &&
       (e.t != t || (e.Attempt? && s.threads[t].active >= max)) {
      RefusalSawFullBudget(max, states, events, i - 1, t);
    } else {
      RunKeepsInv(max, states, events, i - 1);
      assert e.t == t;
    }
  }

  /** The counter as the code sees it: `others` are the values other threads leave behind before each exchange. */
  class Counter {
    var value: nat

    constructor (value: nat)
      ensures this.value == value
    {
      this.value := value;
    }

    /** `reserve`, its loop against any finite interference, including spurious failures. */
    method Reserve(max: nat, others: seq<nat>, spurious: seq<bool>) returns (ok: bool, ghost before: nat)
      requires |spurious| == |others|
      modifies this
      ensures ok ==> before < max && value == before + 1
      ensures !ok ==> before >= max
      ensures before == old(value) || before in others
    {
      var active := value;
      var i := 0;
      while true
        invariant i <= |others|
        invariant active == old(value) || active in others
        invariant value == old(value) || value in others
        decreases |others| - i, if value == active then 0 else 1
      {
        if active >= max {
          return false, active;
        }
        var fails := false;
        if i < |others| {
          value := others[i];
          fails := spurious[i];
          i := i + 1;
        }
        if value == active && !fails {
          value := active + 1;
          return true, active;
        }
        active := value;
      }
    }
  }
}
