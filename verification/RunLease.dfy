/**
  Run admission (`RunLease`, src/lib.rs): ordinary runs count themselves in one atomic
  word, captures and broker installations claim it whole with a marker.

  Each atomic access is one step; loads and exchanges of different threads interleave
  freely.  `active_worker_count` is an arbitrary answer at each call.
 */
module RunLease {
  import opened Wrappers

  const USIZE_MAX: nat := 0xFFFF_FFFF_FFFF_FFFF
  const CAPTURE_MARKER: nat := USIZE_MAX
  const BROKER_INSTALL_MARKER: nat := USIZE_MAX - 1

  datatype Error = BlockedByCapture | InstallInProgress | InstallBlocked

  datatype Thread =
    | Entering                       // ordinary: about to load
    | Loaded(current: nat)           // ordinary: loaded, about to exchange
    | Checking(marker: nat)          // exclusive: about to ask for workers
    | Claiming(marker: nat)          // exclusive: about to exchange
    | Rechecking(marker: nat)        // exclusive: the marker is in place, about to ask again
    | Undoing(marker: nat)           // exclusive: workers found, about to store 0
    | Ordinary                       // holds an ordinary lease
    | Exclusive(marker: nat)         // holds an exclusive lease
    | Refused(error: Error)
    | Dropped

  datatype State = State(word: nat, threads: map<nat, Thread>)

  datatype Event =
    | Acquire(t: nat)
    | AcquireExclusive(t: nat, marker: nat)
    | Load(t: nat)
    | Exchange(t: nat)
    | AskWorkers(t: nat, count: nat)
    | Claim(t: nat)
    | AskWorkersAgain(t: nat, count: nat)
    | Undo(t: nat)
    | Drop(t: nat)

  predicate IsMarker(n: nat) {
    n == CAPTURE_MARKER || n == BROKER_INSTALL_MARKER
  }

  predicate Holding(t: Thread) {
    t.Rechecking? || t.Undoing? || t.Exclusive?
  }

  function Conflict(marker: nat): Error {
    if marker == BROKER_INSTALL_MARKER then InstallBlocked else BlockedByCapture
  }

  predicate Enabled(s: State, e: Event) {
    match e
    case Acquire(t) => t !in s.threads
    case AcquireExclusive(t, marker) => t !in s.threads && IsMarker(marker)
    case Load(t) => t in s.threads && s.threads[t].Entering?
    // Fewer than usize::MAX - 2 ordinary leases at a time: the count never reaches a marker.
    case Exchange(t) => t in s.threads && s.threads[t].Loaded? && (s.word == s.threads[t].current ==> s.word < USIZE_MAX - 2)
    case AskWorkers(t, _) => t in s.threads && s.threads[t].Checking?
    case Claim(t) => t in s.threads && s.threads[t].Claiming?
    case AskWorkersAgain(t, _) => t in s.threads && s.threads[t].Rechecking?
    case Undo(t) => t in s.threads && s.threads[t].Undoing?
    case Drop(t) => t in s.threads && (s.threads[t].Ordinary? || s.threads[t].Exclusive?)
  }

  function Put(s: State, t: nat, at: Thread): State {
    s.(threads := s.threads[t := at])
  }

  /** Unsigned subtraction of one, wrapping like `fetch_sub`. */
  function Minus1(n: nat): nat {
    if n == 0 then USIZE_MAX else n - 1
  }

  function Apply(s: State, e: Event): State
    requires Enabled(s, e)
  {
    match e
    case Acquire(t) => Put(s, t, Entering)
    case AcquireExclusive(t, marker) => Put(s, t, Checking(marker))
    case Load(t) =>
      Put(s, t, if s.word == CAPTURE_MARKER then Refused(BlockedByCapture)
                else if s.word == BROKER_INSTALL_MARKER then Refused(InstallInProgress)
                else Loaded(s.word))
    case Exchange(t) =>
      if s.word == s.threads[t].current then Put(s, t, Ordinary).(word := s.word + 1) else Put(s, t, Entering)
    case AskWorkers(t, count) =>
      var marker := s.threads[t].marker;
      Put(s, t, if count != 0 then Refused(Conflict(marker)) else Claiming(marker))
    case Claim(t) =>
      var marker := s.threads[t].marker;
      if s.word == 0 then Put(s, t, Rechecking(marker)).(word := marker)
      else Put(s, t, Refused(if s.word == BROKER_INSTALL_MARKER then InstallInProgress else Conflict(marker)))
    case AskWorkersAgain(t, count) =>
      var marker := s.threads[t].marker;
      Put(s, t, if count != 0 then Undoing(marker) else Exclusive(marker))
    case Undo(t) => Put(s, t, Refused(Conflict(s.threads[t].marker))).(word := 0)
    case Drop(t) => Put(s, t, Dropped).(word := if s.threads[t].Exclusive? then 0 else Minus1(s.word))
  }

  ghost predicate IsRun(states: seq<State>, events: seq<Event>) {
    && |states| == |events| + 1
    && states[0] == State(0, map[])
    && forall i {:trigger events[i]} :: 0 <= i < |events| ==>
         Enabled(states[i], events[i]) && states[i + 1] == Apply(states[i], events[i])
  }

  function Ordinaries(threads: map<nat, Thread>): set<nat> {
    set t | t in threads && threads[t].Ordinary?
  }

  function Holders(threads: map<nat, Thread>): set<nat> {
    set t | t in threads && Holding(threads[t])
  }

  /** What a thread has loaded or will write is what the code lets it be. */
  predicate ThreadOk(t: Thread) {
    && (t.Loaded? ==> !IsMarker(t.current))
    && (t.Checking? || t.Claiming? || Holding(t) ==> IsMarker(t.marker))
  }

  ghost predicate ThreadsOk(threads: map<nat, Thread>) {
    forall t :: t in threads ==> ThreadOk(threads[t])
  }

  ghost predicate Owned(s: State, h: nat) {
    && Holders(s.threads) == {h} && h in s.threads && Holding(s.threads[h])
    && s.word == s.threads[h].marker && Ordinaries(s.threads) == {}
  }

  ghost predicate Shared(s: State) {
    Holders(s.threads) == {} && s.word == |Ordinaries(s.threads)| && s.word < BROKER_INSTALL_MARKER
  }

  /** Either one thread has the whole word, or the word counts the ordinary leases. */
  ghost predicate Inv(s: State) {
    ThreadsOk(s.threads) && (Shared(s) || exists h :: Owned(s, h))
  }

  lemma PutOrdinaries(threads: map<nat, Thread>, t: nat, at: Thread)
    ensures Ordinaries(threads[t := at]) == (if at.Ordinary? then Ordinaries(threads) + {t} else Ordinaries(threads) - {t})
    ensures Holders(threads[t := at]) == (if Holding(at) then Holders(threads) + {t} else Holders(threads) - {t})
  {
  }

  lemma StepKeepsThreadsOk(s: State, e: Event)
    requires ThreadsOk(s.threads) && Enabled(s, e)
    ensures ThreadsOk(Apply(s, e).threads)
  {
    assert e.t in s.threads ==> ThreadOk(s.threads[e.t]);
    assert ThreadOk(Apply(s, e).threads[e.t]);
  }

  /** With no exclusive claim about, nobody holds one and the word goes on counting. */
  lemma SharedStep(s: State, e: Event)
    requires ThreadsOk(s.threads) && Shared(s) && Enabled(s, e)
    ensures Shared(Apply(s, e)) || Owned(Apply(s, e), e.t)
  {
    if e.Claim? {
      SharedClaim(s, e.t);
    } else {
      SharedStaysShared(s, e);
    }
  }

  lemma SharedClaim(s: State, t: nat)
    requires ThreadsOk(s.threads) && Shared(s) && Enabled(s, Claim(t))
    ensures Shared(Apply(s, Claim(t))) || Owned(Apply(s, Claim(t)), t)
  {
    var s' := Apply(s, Claim(t));
    PutOrdinaries(s.threads, t, s'.threads[t]);
    assert ThreadOk(s.threads[t]) && t !in Ordinaries(s.threads);
    if s.word == 0 {
      assert Ordinaries(s.threads) == {};
    }
  }

  lemma SharedStaysShared(s: State, e: Event)
    requires ThreadsOk(s.threads) && Shared(s) && Enabled(s, e) && !e.Claim?
    ensures Shared(Apply(s, e))
  {
    var s' := Apply(s, e);
    PutOrdinaries(s.threads, e.t, s'.threads[e.t]);
    if e.t in s.threads {
      assert ThreadOk(s.threads[e.t]);
      assert e.t in Holders(s.threads) <==> Holding(s.threads[e.t]);
      assert e.t in Ordinaries(s.threads) <==> s.threads[e.t].Ordinary?;
    }
    assert Holders(s'.threads) == {};
  }

  /** Under an exclusive claim only its owner can touch the word. */
  lemma OwnedStep(s: State, e: Event, h: nat)
    requires ThreadsOk(s.threads) && Owned(s, h) && Enabled(s, e)
    ensures Shared(Apply(s, e)) || Owned(Apply(s, e), h)
  {
    var s' := Apply(s, e);
    PutOrdinaries(s.threads, e.t, s'.threads[e.t]);
    assert ThreadOk(s.threads[h]);
    if e.t in s.threads {
      assert ThreadOk(s.threads[e.t]);
      assert e.t in Holders(s.threads) <==> Holding(s.threads[e.t]);
      assert e.t in Ordinaries(s.threads) <==> s.threads[e.t].Ordinary?;
    }
    if e.t == h {
      assert e.AskWorkersAgain? ==> Holders(s'.threads) == {h};
      assert !e.AskWorkersAgain? ==> Holders(s'.threads) == {};
    } else {
      assert Holders(s'.threads) == {h};
    }
  }

  lemma StepKeepsInv(s: State, e: Event)
    requires Inv(s) && Enabled(s, e)
    ensures Inv(Apply(s, e))
  {
    StepKeepsThreadsOk(s, e);
    if Shared(s) {
      SharedStep(s, e);
    } else {
      var h :| Owned(s, h);
      OwnedStep(s, e, h);
    }
  }

  lemma {:induction false} RunKeepsInv(states: seq<State>, events: seq<Event>, i: nat)
    requires IsRun(states, events) && i < |states|
    ensures Inv(states[i])
  {
    if i > 0 {
      RunKeepsInv(states, events, i - 1);
      StepKeepsInv(states[i - 1], events[i - 1]);
    }
  }

  /** An exclusive lease excludes every other lease, ordinary or exclusive. */
  lemma ExclusiveExcludes(states: seq<State>, events: seq<Event>, i: nat, t: nat, u: nat)
    requires IsRun(states, events) && i < |states|
    requires t in states[i].threads && states[i].threads[t].Exclusive?
    requires u in states[i].threads && u != t
    ensures !states[i].threads[u].Ordinary? && !states[i].threads[u].Exclusive?
    ensures states[i].word == states[i].threads[t].marker
  {
    RunKeepsInv(states, events, i);
    assert t in Holders(states[i].threads);
    assert u in Holders(states[i].threads) <==> Holding(states[i].threads[u]);
    assert u in Ordinaries(states[i].threads) <==> states[i].threads[u].Ordinary?;
  }

  /** Steps of one thread that matter to its exclusive claim: the last of each kind, in order. */
  ghost predicate Claimed(states: seq<State>, events: seq<Event>, i: nat, t: nat, first: nat, claim: nat)
    requires i <= |events| < |states|
  {
    && first < claim < i
    && events[first] == AskWorkers(t, 0)
    && events[claim] == Claim(t) && states[claim].word == 0
  }

  lemma {:induction false} ClaimerSawNobody(states: seq<State>, events: seq<Event>, i: nat, t: nat)
    returns (first: nat, claim: nat)
    requires IsRun(states, events) && i < |states| && t in states[i].threads
    requires states[i].threads[t].Claiming? || Holding(states[i].threads[t])
    ensures states[i].threads[t].Claiming? ==> first < i && events[first] == AskWorkers(t, 0)
    ensures Holding(states[i].threads[t]) ==> Claimed(states, events, i, t, first, claim)
  {
    var s, e := states[i - 1], events[i - 1];
    assert states[i] == Apply(s, e);
    if e == AskWorkers(t, 0) {
      first, claim := i - 1, 0;
    } else if e == Claim(t) {
      var ignored;
      first, ignored := ClaimerSawNobody(states, events, i - 1, t);
      claim := i - 1;
    } else {
      first, claim := ClaimerSawNobody(states, events, i - 1, t);
    }
  }

  /** An exclusive lease was claimed over the word 0, between two looks that found no worker. */
  lemma {:induction false} ExclusiveSawNobody(states: seq<State>, events: seq<Event>, i: nat, t: nat)
    returns (first: nat, claim: nat, again: nat)
    requires IsRun(states, events) && i < |states| && t in states[i].threads && states[i].threads[t].Exclusive?
    ensures again < i && Claimed(states, events, again, t, first, claim)
    ensures events[again] == AskWorkersAgain(t, 0)
  {
    var s, e := states[i - 1], events[i - 1];
    assert states[i] == Apply(s, e);
    if e == AskWorkersAgain(t, 0) {
      first, claim := ClaimerSawNobody(states, events, i - 1, t);
      again := i - 1;
    } else {
      first, claim, again := ExclusiveSawNobody(states, events, i - 1, t);
    }
  }

  /** The event that refuses a thread, and the error that goes with it. */
  predicate Refuses(s: State, e: Event, t: nat, error: Error) {
    match e
    case Load(u) =>
      u == t && ((s.word == CAPTURE_MARKER && error.BlockedByCapture?) || (s.word == BROKER_INSTALL_MARKER && error.InstallInProgress?))
    case AskWorkers(u, count) =>
      u == t && count != 0 && t in s.threads && s.threads[t].Checking? && error == ConflictFor(s.threads[t].marker)
    case Claim(u) =>
      && u == t && s.word != 0 && t in s.threads && s.threads[t].Claiming?
      && error == (if s.word == BROKER_INSTALL_MARKER then InstallInProgress else ConflictFor(s.threads[t].marker))
    case Undo(u) => u == t && t in s.threads && s.threads[t].Undoing? && error == ConflictFor(s.threads[t].marker)
    case _ => false
  }

  /** A broker installation is told it is blocked, a capture that another run is in the way. */
  function ConflictFor(marker: nat): Error {
    if marker == USIZE_MAX - 1 then InstallBlocked else BlockedByCapture
  }

  /** Nobody is refused without cause, and every refusal carries the error of its cause. */
  lemma {:induction false} RefusalsHaveACause(states: seq<State>, events: seq<Event>, i: nat, t: nat) returns (n: nat)
    requires IsRun(states, events) && i < |states| && t in states[i].threads && states[i].threads[t].Refused?
    ensures n < i && Refuses(states[n], events[n], t, states[i].threads[t].error)
  {
    var s, e := states[i - 1], events[i - 1];
    assert states[i] == Apply(s, e);
    if t in s.threads && s.threads[t].Refused? {
      n := RefusalsHaveACause(states, events, i - 1, t);
    } else {
      n := i - 1;
    }
  }

  /** While nobody has or is confirming an exclusive claim, the word is the number of ordinary leases. */
  lemma WordCountsLeases(states: seq<State>, events: seq<Event>, i: nat)
    requires IsRun(states, events) && i < |states| && Holders(states[i].threads) == {}
    ensures states[i].word == |Ordinaries(states[i].threads)|
  {
    RunKeepsInv(states, events, i);
  }

  /** A failed recheck puts back exactly what was there: 0, with no lease erased by the store. */
  lemma UndoErasesNobody(states: seq<State>, events: seq<Event>, i: nat)
    requires IsRun(states, events) && i < |events| && events[i].Undo?
    ensures Ordinaries(states[i].threads) == {} && Holders(states[i].threads) == {events[i].t}
    ensures states[i + 1].word == 0 == |Ordinaries(states[i + 1].threads)| && Holders(states[i + 1].threads) == {}
  {
    var s, e := states[i], events[i];
    RunKeepsInv(states, events, i);
    RunKeepsInv(states, events, i + 1);
    assert e.t in Holders(s.threads);
    PutOrdinaries(s.threads, e.t, states[i + 1].threads[e.t]);
    assert Holders(s.threads) == {e.t};
  }

  /** Leases do not leak: with every thread finished, a new exclusive claim can succeed. */
  lemma QuiescentWordIsZero(states: seq<State>, events: seq<Event>, i: nat)
    requires IsRun(states, events) && i < |states|
    requires forall t :: t in states[i].threads ==> states[i].threads[t].Dropped? || states[i].threads[t].Refused?
    ensures states[i].word == 0
  {
    RunKeepsInv(states, events, i);
    assert Ordinaries(states[i].threads) == {} && Holders(states[i].threads) == {};
  }

  // ---- the code of one thread ----

  /**
    `RUN_STATE` as one thread's calls see it: `others` are the values other threads leave
    behind before each of its accesses.
   */
  class RunState {
    var word: nat

    constructor (word: nat)
      ensures this.word == word
    {
      this.word := word;
    }

    /** `acquire(false)`: an increment of a value that was no marker, or a refusal that writes nothing. */
    method Acquire(others: seq<nat>) returns (refused: Option<Error>, ghost seen: nat)
      modifies this
      ensures seen == old(word) || seen in others
      ensures refused.None? ==> !IsMarker(seen) && word == seen + 1
      ensures refused.Some? ==> IsMarker(seen) && (word == old(word) || word in others)
      ensures refused.Some? ==>
        refused == Some(if seen == CAPTURE_MARKER then BlockedByCapture else InstallInProgress)
    {
      var i := 0;
      while true
        invariant i <= |others| && (word == old(word) || word in others)
        decreases |others| - i
      {
        var current := word;
        if current == CAPTURE_MARKER {
          return Some(BlockedByCapture), current;
        }
        if current == BROKER_INSTALL_MARKER {
          return Some(InstallInProgress), current;
        }
        if i < |others| {
          word := others[i];
          i := i + 1;
        }
        if word == current {
          word := current + 1;
          return None, current;
        }
      }
    }

    /** `acquire_exclusive`: the marker goes in only over 0 and stays only when both worker counts are 0. */
    method AcquireExclusive(marker: nat, workersBefore: nat, found: nat, workersAfter: nat)
      returns (refused: Option<Error>)
      requires IsMarker(marker)
      modifies this
      ensures refused.None? <==> workersBefore == 0 && found == 0 && workersAfter == 0
      ensures refused.None? ==> word == marker
      ensures refused.Some? ==> word == if workersBefore != 0 then old(word) else found
      ensures refused == Some(InstallInProgress) <==> workersBefore == 0 && found == BROKER_INSTALL_MARKER
      ensures refused.Some? && refused != Some(InstallInProgress) ==> refused == Some(Conflict(marker))
    {
      if workersBefore != 0 {
        return Some(Conflict(marker));
      }
      word := found;
      if word != 0 {
        return Some(if word == BROKER_INSTALL_MARKER then InstallInProgress else Conflict(marker));
      }
      word := marker;
      if workersAfter != 0 {
        word := 0;
        return Some(Conflict(marker));
      }
      refused := None;
    }

    /** Dropping a lease. */
    method Drop(exclusive: bool)
      modifies this
      ensures word == if exclusive then 0 else Minus1(old(word))
    {
      word := if exclusive then 0 else Minus1(word);
    }
  }
}
