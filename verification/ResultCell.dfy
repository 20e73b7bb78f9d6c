/**
  The write-once result cell (`ResultCell`, src/executor.rs) and the callers waiting on it.

  `Notify` is a generation counter: `notified()` takes the current generation as its
  ticket, `notify_waiters()` starts the next one, and a ticket from an earlier
  generation is ready.
 */
module ResultCells {
  import opened Wrappers
  import opened Tasks

  class ResultCell {
    var completion: Option<Outcome>
    var generation: nat

    constructor ()
      ensures completion == None && generation == 0
    {
      completion, generation := None, 0;
    }

    method Publish(result: Outcome)
      modifies this
      ensures (completion, generation) == Published(old(completion), old(generation), result)
      ensures completion == if old(completion).None? then Some(result) else old(completion)
      ensures generation == if old(completion).None? then old(generation) + 1 else old(generation)
    {
      if completion.None? {
        completion := Some(result);
        generation := generation + 1;
      }
    }
  }

  function Published(completion: Option<Outcome>, generation: nat, result: Outcome): (Option<Outcome>, nat) {
    if completion.None? then (Some(result), generation + 1) else (completion, generation)
  }

  /** A caller of `wait`, between two of its steps. */
  datatype Waiter = Looping | Ticketed(ticket: nat) | Parked(ticket: nat) | Returned(result: Outcome)

  datatype State = State(completion: Option<Outcome>, generation: nat, waiters: map<nat, Waiter>)

  datatype Event =
    | Arrive(w: nat)
    | TakeTicket(w: nat)          // `let notified = notify.notified()`
    | Check(w: nat)               // lock, look, return or await
    | Resume(w: nat)              // the awaited ticket is ready
    | Leave(w: nat)               // the future is dropped
    | Publish(result: Outcome)

  predicate Enabled(s: State, e: Event) {
    match e
    case Arrive(w) => w !in s.waiters
    case TakeTicket(w) => w in s.waiters && s.waiters[w].Looping?
    case Check(w) => w in s.waiters && s.waiters[w].Ticketed?
    case Resume(w) => w in s.waiters && s.waiters[w].Parked? && s.waiters[w].ticket < s.generation
    case Leave(w) => w in s.waiters
    case Publish(_) => true
  }

  function Apply(s: State, e: Event): State
    requires Enabled(s, e)
  {
    match e
    case Arrive(w) => s.(waiters := s.waiters[w := Looping])
    case TakeTicket(w) => s.(waiters := s.waiters[w := Ticketed(s.generation)])
    case Check(w) =>
      s.(waiters := s.waiters[w :=
           if s.completion.Some? then Returned(s.completion.value) else Parked(s.waiters[w].ticket)])
    case Resume(w) => s.(waiters := s.waiters[w := Looping])
    case Leave(w) => s.(waiters := s.waiters - {w})
    case Publish(result) =>
      var (completion, generation) := Published(s.completion, s.generation, result);
      s.(completion := completion, generation := generation)
  }

  predicate WaiterOk(s: State, w: Waiter) {
    match w
    case Looping => true
    case Ticketed(t) => t <= s.generation
    case Parked(t) => s.completion.Some? ==> t < s.generation
    case Returned(r) => s.completion == Some(r)
  }

  ghost predicate Inv(s: State) {
    && s.generation == (if s.completion.Some? then 1 else 0)
    && forall w :: w in s.waiters ==>
         WaiterOk(s, s.waiters[w]) && (s.waiters[w].Parked? ==> s.waiters[w].ticket == 0)
  }

  ghost predicate IsRun(states: seq<State>, events: seq<Event>) {
    && |states| == |events| + 1
    && states[0] == State(None, 0, map[])
    && forall i {:trigger events[i]} :: 0 <= i < |events| ==>
         Enabled(states[i], events[i]) && states[i + 1] == Apply(states[i], events[i])
  }

  lemma StepKeepsInv(s: State, e: Event)
    requires Inv(s) && Enabled(s, e)
    ensures Inv(Apply(s, e))
    ensures s.completion.Some? ==> Apply(s, e).completion == s.completion
  {
  }

  lemma {:induction false} RunKeepsInv(states: seq<State>, events: seq<Event>, i: nat)
    requires IsRun(states, events) && i < |states|
    ensures Inv(states[i])
  {
    if i > 0 {
      RunKeepsInv(states, events, i - 1);
      StepKeepsInv(states[i - 1], events[i - 1]);
    }
  }

  /** The first published result is the only one, now and later. */
  lemma {:induction false} ResultIsWrittenOnce(states: seq<State>, events: seq<Event>, i: nat, j: nat)
    requires IsRun(states, events) && i <= j < |states| && states[i].completion.Some?
    ensures states[j].completion == states[i].completion
    decreases j
  {
    if i < j {
      ResultIsWrittenOnce(states, events, i, j - 1);
      RunKeepsInv(states, events, j - 1);
      StepKeepsInv(states[j - 1], events[j - 1]);
    }
  }

  /** The first publication of a run is what every caller returns. */
  lemma FirstPublicationIsReturned(states: seq<State>, events: seq<Event>, i: nat, j: nat, w: nat, result: Outcome)
    requires IsRun(states, events) && i < j < |states| && events[i] == Publish(result) && states[i].completion == None
    requires w in states[j].waiters && states[j].waiters[w].Returned?
    ensures states[j].waiters[w].result == result
  {
    ResultIsWrittenOnce(states, events, i + 1, j);
    RunKeepsInv(states, events, j);
  }

  /** Nobody stays parked after publication, and every caller returns the published result. */
  lemma NoWaiterStaysParked(states: seq<State>, events: seq<Event>, i: nat, w: nat)
    requires IsRun(states, events) && i < |states| && w in states[i].waiters
    ensures states[i].waiters[w].Returned? ==> states[i].completion == Some(states[i].waiters[w].result)
    ensures states[i].waiters[w].Parked? ==> (Enabled(states[i], Resume(w)) <==> states[i].completion.Some?)
  {
    RunKeepsInv(states, events, i);
  }

  /** How many of its own steps a caller still needs once the result is there. */
  function StepsLeft(w: Waiter): nat {
    match w
    case Returned(_) => 0
    case Ticketed(_) => 1
    case Looping => 2
    case Parked(_) => 3
  }

  function OwnStep(w: nat, at: Waiter): Event
    requires !at.Returned?
  {
    match at
    case Looping => TakeTicket(w)
    case Ticketed(_) => Check(w)
    case Parked(_) => Resume(w)
  }

  /** Once published, each own step of a caller is possible and brings it closer to returning; three suffice. */
  lemma PublicationEndsTheWait(states: seq<State>, events: seq<Event>, i: nat, w: nat)
    requires IsRun(states, events) && i < |states|
    requires states[i].completion.Some? && w in states[i].waiters && !states[i].waiters[w].Returned?
    ensures var e := OwnStep(w, states[i].waiters[w]);
            && Enabled(states[i], e)
            && StepsLeft(Apply(states[i], e).waiters[w]) == StepsLeft(states[i].waiters[w]) - 1
  {
    RunKeepsInv(states, events, i);
  }
}
