/**
  Reuse of the resolver stack across runs (`LibdenoRuntime::refresh` and
  `shared_for_run`, src/runtime.rs): a double-checked gate with refresh generations and
  conditional publication.
 */
module ResolverReuse {
  import opened Wrappers

  const MAX_GENERATION: nat := 0xFFFF_FFFF_FFFF_FFFF

  /** One construction of the stack; `began` counts the refreshes that had returned when it started. */
  datatype Build = Build(id: nat, generation: nat, began: nat)

  /** The fields behind the runtime's state lock. */
  datatype Published = Published(refreshGeneration: nat, builtGeneration: nat, manifest: Build, shared: Build)

  predicate NeedsRebuild(changed: bool, refreshGeneration: nat, builtGeneration: nat) {
    changed || builtGeneration != refreshGeneration
  }

  function SingleflightBuildGeneration(changed: bool, refreshGeneration: nat, builtGeneration: nat): Option<nat> {
    if NeedsRebuild(changed, refreshGeneration, builtGeneration) then Some(refreshGeneration) else None
  }

  predicate CanPublish(buildGeneration: nat, currentGeneration: nat) {
    buildGeneration == currentGeneration
  }

  function Refreshed(p: Published): Published {
    p.(refreshGeneration := if p.refreshGeneration >= MAX_GENERATION then 0 else p.refreshGeneration + 1)
  }

  function Offered(p: Published, candidate: Build, generation: nat): Published {
    if CanPublish(generation, p.refreshGeneration)
    then p.(manifest := candidate, shared := candidate, builtGeneration := generation)
    else p
  }

  /** `RuntimeState` as the source keeps it. */
  class RuntimeState {
    var refreshGeneration: nat
    var builtGeneration: nat
    var manifest: Build
    var shared: Build

    ghost function View(): Published
      reads this
    {
      Published(refreshGeneration, builtGeneration, manifest, shared)
    }

    constructor (first: Build)
      ensures View() == Published(0, 0, first, first)
    {
      refreshGeneration, builtGeneration, manifest, shared := 0, 0, first, first;
    }

    method Refresh()
      modifies this
      ensures View() == Refreshed(old(View()))
      ensures refreshGeneration == if old(refreshGeneration) < MAX_GENERATION then old(refreshGeneration) + 1 else 0
      ensures View() == old(View()).(refreshGeneration := refreshGeneration)
    {
      refreshGeneration := if refreshGeneration >= MAX_GENERATION then 0 else refreshGeneration + 1;
    }

    method Offer(candidate: Build, generation: nat)
      modifies this
      ensures View() == Offered(old(View()), candidate, generation)
      ensures View() == if generation == old(refreshGeneration)
                        then Published(generation, generation, candidate, candidate) else old(View())
    {
      if CanPublish(generation, refreshGeneration) {
        manifest := candidate;
        shared := candidate;
        builtGeneration := generation;
      }
    }
  }

  // ---- runs as a step relation ----

  /** Where a run is inside `shared_for_run`; `since` is the refresh count when it began. */
  datatype Run =
    | Begun(since: nat)
    | Probing(since: nat, refresh: nat, built: nat, shared: Build)
    | AtGate(since: nat)
    | Holding(since: nat)
    | Reprobing(since: nat, refresh: nat, built: nat)
    | Reusing(since: nat)
    | Chosen(since: nat, generation: nat)
    | Constructing(since: nat, build: Build)
    | Using(since: nat, build: Build)
    | Gone

  predicate HoldsGate(r: Run) {
    r.Holding? || r.Reprobing? || r.Reusing? || r.Chosen? || r.Constructing?
  }

  datatype State = State(state: Published, gate: Option<nat>, runs: map<nat, Run>, builds: nat)

  datatype Event =
    | Refresh
    | Begin(w: nat)
    | ReadState(w: nat)
    | Probe(w: nat, changed: bool)
    | TakeGate(w: nat)
    | RereadState(w: nat)
    | Reprobe(w: nat, changed: bool)
    | ReadShared(w: nat)
    | StartBuild(w: nat)
    | FinishBuild(w: nat)
    | FailBuild(w: nat)
    | Abandon(w: nat)          // the run's future is dropped while it waits

  predicate At(s: State, w: nat) {
    w in s.runs
  }

  predicate Enabled(s: State, e: Event) {
    match e
    // Fewer than 2^64 refreshes: the generation does not wrap.
    case Refresh => s.state.refreshGeneration < MAX_GENERATION
    case Begin(w) => w !in s.runs
    case ReadState(w) => At(s, w) && s.runs[w].Begun?
    case Probe(w, _) => At(s, w) && s.runs[w].Probing?
    case TakeGate(w) => At(s, w) && s.runs[w].AtGate? && s.gate.None?
    case RereadState(w) => At(s, w) && s.runs[w].Holding?
    case Reprobe(w, _) => At(s, w) && s.runs[w].Reprobing?
    case ReadShared(w) => At(s, w) && s.runs[w].Reusing?
    case StartBuild(w) => At(s, w) && s.runs[w].Chosen?
    case FinishBuild(w) => At(s, w) && s.runs[w].Constructing?
    case FailBuild(w) => At(s, w) && s.runs[w].Constructing?
    case Abandon(w) => At(s, w) && (s.runs[w].AtGate? || s.runs[w].Constructing?)
  }

  function Put(s: State, w: nat, r: Run): State {
    s.(runs := s.runs[w := r])
  }

  function Leave(s: State, w: nat, r: Run): State {
    s.(runs := s.runs[w := r], gate := if s.gate == Some(w) then None else s.gate)
  }

  function Apply(s: State, e: Event): State
    requires Enabled(s, e)
  {
    var p := s.state;
    match e
    case Refresh => s.(state := Refreshed(p))
    case Begin(w) => Put(s, w, Begun(p.refreshGeneration))
    case ReadState(w) =>
      Put(s, w, Probing(s.runs[w].since, p.refreshGeneration, p.builtGeneration, p.shared))
    case Probe(w, changed) =>
      var r := s.runs[w];
      Put(s, w, if SingleflightBuildGeneration(changed, r.refresh, r.built).None? then Using(r.since, r.shared)
                else AtGate(r.since))
    case TakeGate(w) => Put(s, w, Holding(s.runs[w].since)).(gate := Some(w))
    case RereadState(w) => Put(s, w, Reprobing(s.runs[w].since, p.refreshGeneration, p.builtGeneration))
    case Reprobe(w, changed) =>
      var r := s.runs[w];
      var generation := SingleflightBuildGeneration(changed, r.refresh, r.built);
      Put(s, w, if generation.None? then Reusing(r.since) else Chosen(r.since, generation.value))
    case ReadShared(w) => Leave(s, w, Using(s.runs[w].since, p.shared))
    case StartBuild(w) =>
      var r := s.runs[w];
      Put(s, w, Constructing(r.since, Build(s.builds, r.generation, p.refreshGeneration))).(builds := s.builds + 1)
    case FinishBuild(w) =>
      var r := s.runs[w];
      Leave(s, w, Using(r.since, r.build)).(state := Offered(p, r.build, r.build.generation))
    case FailBuild(w) => Leave(s, w, Gone)
    case Abandon(w) => Leave(s, w, Gone)
  }

  const First := Build(0, 0, 0)

  ghost predicate IsRun(states: seq<State>, events: seq<Event>) {
    && |states| == |events| + 1
    && states[0] == State(Published(0, 0, First, First), None, map[], 1)
    && forall i {:trigger events[i]} :: 0 <= i < |events| ==>
         Enabled(states[i], events[i]) && states[i + 1] == Apply(states[i], events[i])
  }

  // ---- the invariant ----

  predicate Timely(b: Build) {
    b.generation <= b.began
  }

  predicate RunOk(s: State, w: nat, r: Run) {
    && (HoldsGate(r) <==> s.gate == Some(w))
    && match r
       case Begun(since) => since <= s.state.refreshGeneration
       case Probing(since, refresh, built, shared) => since <= refresh && built == shared.generation && Timely(shared)
       case AtGate(since) => since <= s.state.refreshGeneration
       case Holding(since) => since <= s.state.refreshGeneration
       case Reprobing(since, refresh, built) =>
         since <= refresh <= s.state.refreshGeneration && built == s.state.builtGeneration <= refresh
       case Reusing(since) => since <= s.state.builtGeneration
       case Chosen(since, generation) => since <= generation <= s.state.refreshGeneration && s.state.builtGeneration <= generation
       case Constructing(since, build) =>
         since <= build.generation && Timely(build) && s.state.builtGeneration <= build.generation
       case Using(since, build) => since <= build.began
       case Gone => true
  }

  predicate Consistent(p: Published) {
    && p.manifest == p.shared && p.shared.generation == p.builtGeneration
    && Timely(p.shared) && p.builtGeneration <= p.refreshGeneration
  }

  ghost predicate Inv(s: State) {
    && Consistent(s.state)
    && (s.gate.Some? ==> s.gate.value in s.runs)
    && forall w :: w in s.runs ==>
         RunOk(s, w, s.runs[w]) && (s.runs[w].Probing? ==> s.runs[w].since <= s.state.refreshGeneration)
  }

  /** One run moves on; the gate changes only from or to that run. */
  lemma MoveKeepsInv(s: State, s': State, w: nat)
    requires Inv(s) && w in s'.runs && s'.state == s.state
    requires s'.runs == s.runs[w := s'.runs[w]]
    requires s'.gate == s.gate || (s.gate.None? && s'.gate == Some(w)) || (s.gate == Some(w) && s'.gate.None?)
    requires RunOk(s', w, s'.runs[w]) && (s'.runs[w].Probing? ==> s'.runs[w].since <= s.state.refreshGeneration)
    ensures Inv(s')
  {
    forall v | v in s'.runs
      ensures RunOk(s', v, s'.runs[v])
    {
      assert v != w ==> RunOk(s, v, s.runs[v]);
    }
  }

  /** Publication: the builder holds the gate, so no other run is between its reread and its use. */
  lemma FinishKeepsInv(s: State, w: nat)
    requires Inv(s) && Enabled(s, FinishBuild(w))
    ensures Inv(Apply(s, FinishBuild(w)))
  {
    var s' := Apply(s, FinishBuild(w));
    assert RunOk(s, w, s.runs[w]);
    forall v | v in s'.runs
      ensures RunOk(s', v, s'.runs[v])
    {
      assert v != w ==> RunOk(s, v, s.runs[v]);
    }
  }

  lemma StepKeepsInv(s: State, e: Event)
    requires Inv(s) && Enabled(s, e)
    ensures Inv(Apply(s, e))
  {
    match e
    case Refresh => RefreshKeepsInv(s);
    case FinishBuild(w) => FinishKeepsInv(s, w);
    case Begin(w) => MoveKeepsInv(s, Apply(s, e), w);
    case _ => OwnStepKeepsInv(s, e);
  }

  lemma RefreshKeepsInv(s: State)
    requires Inv(s) && Enabled(s, Refresh)
    ensures Inv(Apply(s, Refresh))
  {
  }

  lemma OwnStepKeepsInv(s: State, e: Event)
    requires Inv(s) && Enabled(s, e) && !e.Refresh? && !e.FinishBuild? && !e.Begin?
    ensures Inv(Apply(s, e))
  {
    assert RunOk(s, e.w, s.runs[e.w]);
    MoveKeepsInv(s, Apply(s, e), e.w);
  }

  lemma {:induction false} RunKeepsInv(states: seq<State>, events: seq<Event>, i: nat)
    requires IsRun(states, events) && i < |states|
    ensures Inv(states[i])
  {
    if i > 0 {
      RunKeepsInv(states, events, i - 1);
      StepKeepsInv(states[i - 1], events[i - 1]);
    }
  }

  // ---- the promises ----

  lemma SinceIsKept(states: seq<State>, events: seq<Event>, i: nat, j: nat, w: nat)
    requires IsRun(states, events) && i < j < |states| && events[i] == Begin(w)
    requires w in states[j].runs && states[j].runs[w].Using?
    ensures states[j].runs[w].since == states[i].state.refreshGeneration
  {
    SinceHeld(states, events, i, j, w);
  }

  lemma {:induction false} SinceHeld(states: seq<State>, events: seq<Event>, i: nat, j: nat, w: nat)
    requires IsRun(states, events) && i < j < |states| && events[i] == Begin(w)
    ensures w in states[j].runs
    ensures !states[j].runs[w].Gone? ==> states[j].runs[w].since == states[i].state.refreshGeneration
    decreases j
  {
    assert states[j] == Apply(states[j - 1], events[j - 1]);
    if i + 1 < j {
      SinceHeld(states, events, i, j - 1, w);
    }
  }

  /**
    A run uses a stack whose construction began after every refresh that had returned
    when the run began: `began` counts at least the refreshes counted at `Begin`.
   */
  lemma RunsUseFreshStacks(states: seq<State>, events: seq<Event>, i: nat, j: nat, w: nat)
    requires IsRun(states, events) && i < j < |states| && events[i] == Begin(w)
    requires w in states[j].runs && states[j].runs[w].Using?
    ensures states[i].state.refreshGeneration <= states[j].runs[w].build.began
  {
    SinceIsKept(states, events, i, j, w);
    RunKeepsInv(states, events, j);
  }

  /** At most one construction is in progress. */
  lemma OneConstruction(states: seq<State>, events: seq<Event>, i: nat, v: nat, w: nat)
    requires IsRun(states, events) && i < |states|
    requires v in states[i].runs && states[i].runs[v].Constructing?
    requires w in states[i].runs && states[i].runs[w].Constructing?
    ensures v == w
  {
    RunKeepsInv(states, events, i);
  }

  /** The stored manifest, stack and generation come from one build. */
  lemma StoredTogether(states: seq<State>, events: seq<Event>, i: nat)
    requires IsRun(states, events) && i < |states|
    ensures var p := states[i].state;
            p.manifest == p.shared && p.builtGeneration == p.shared.generation <= p.refreshGeneration
  {
    RunKeepsInv(states, events, i);
  }

  /**
    A refresh that arrives during a build keeps the candidate out of the stored state, and
    the next run to look rebuilds whatever its probe says.
   */
  lemma RefreshDuringBuildIsNotLost(states: seq<State>, events: seq<Event>, i: nat, w: nat, changed: bool)
    requires IsRun(states, events) && i < |events| && events[i] == FinishBuild(w)
    requires states[i].runs[w].build.generation < states[i].state.refreshGeneration
    ensures states[i + 1].state == states[i].state
    ensures states[i + 1].state.builtGeneration < states[i + 1].state.refreshGeneration
    ensures SingleflightBuildGeneration(changed, states[i + 1].state.refreshGeneration, states[i + 1].state.builtGeneration)
            == Some(states[i + 1].state.refreshGeneration)
  {
    RunKeepsInv(states, events, i);
    assert RunOk(states[i], w, states[i].runs[w]);
  }

  /** A build that no refresh overtook is stored whole, for every later run. */
  lemma TimelyBuildIsStored(states: seq<State>, events: seq<Event>, i: nat, w: nat)
    requires IsRun(states, events) && i < |events| && events[i] == FinishBuild(w)
    ensures w in states[i].runs && states[i].runs[w].Constructing?
    ensures var b := states[i].runs[w].build;
            && states[i + 1].runs[w] == Using(states[i].runs[w].since, b)
            && (b.generation == states[i].state.refreshGeneration ==>
                  states[i + 1].state == Published(b.generation, b.generation, b, b))
  {
    assert Enabled(states[i], events[i]);
  }

  // ---- what a probe decides ----

  /** The stored state a run looked at before its probe. */
  lemma {:induction false} ProbedWhatWasStored(states: seq<State>, events: seq<Event>, i: nat, w: nat) returns (n: nat)
    requires IsRun(states, events) && i < |states| && w in states[i].runs && states[i].runs[w].Probing?
    ensures n < i && events[n] == ReadState(w)
    ensures var r, p := states[i].runs[w], states[n].state;
            r.refresh == p.refreshGeneration && r.built == p.builtGeneration && r.shared == p.shared
  {
    var s, e := states[i - 1], events[i - 1];
    assert states[i] == Apply(s, e);
    if e == ReadState(w) {
      n := i - 1;
    } else {
      n := ProbedWhatWasStored(states, events, i - 1, w);
    }
  }

  /**
    A run that sees a change, or a refresh not built yet, goes to the gate; a run that sees
    neither takes the stored stack it read, and builds and stores nothing.
   */
  lemma ProbeDecides(states: seq<State>, events: seq<Event>, i: nat, w: nat, changed: bool) returns (n: nat)
    requires IsRun(states, events) && i < |events| && events[i] == Probe(w, changed)
    ensures n < i && events[n] == ReadState(w) && w in states[i].runs
    ensures var p, since := states[n].state, states[i].runs[w].since;
            states[i + 1] == states[i].(runs := states[i].runs[w :=
              if changed || p.builtGeneration != p.refreshGeneration then AtGate(since) else Using(since, p.shared)])
  {
    assert Enabled(states[i], events[i]);
    n := ProbedWhatWasStored(states, events, i, w);
  }

  /** The state read again under the gate, and what the second probe makes of it. */
  lemma {:induction false} ReprobedWhatWasStored(states: seq<State>, events: seq<Event>, i: nat, w: nat) returns (n: nat)
    requires IsRun(states, events) && i < |states| && w in states[i].runs && states[i].runs[w].Reprobing?
    ensures n < i && events[n] == RereadState(w)
    ensures var r, p := states[i].runs[w], states[n].state;
            r.refresh == p.refreshGeneration && r.built == p.builtGeneration
  {
    var s, e := states[i - 1], events[i - 1];
    assert states[i] == Apply(s, e);
    if e == RereadState(w) {
      n := i - 1;
    } else {
      n := ReprobedWhatWasStored(states, events, i - 1, w);
    }
  }

  lemma ReprobeDecides(states: seq<State>, events: seq<Event>, i: nat, w: nat, changed: bool) returns (n: nat)
    requires IsRun(states, events) && i < |events| && events[i] == Reprobe(w, changed)
    ensures n < i && events[n] == RereadState(w) && w in states[i].runs
    ensures var p, since := states[n].state, states[i].runs[w].since;
            states[i + 1] == states[i].(runs := states[i].runs[w :=
              if changed || p.builtGeneration != p.refreshGeneration then Chosen(since, p.refreshGeneration)
              else Reusing(since)])
  {
    assert Enabled(states[i], events[i]);
    n := ReprobedWhatWasStored(states, events, i, w);
  }

  /** `build` is one the run itself began between the two steps. */
  ghost predicate OwnBuild(states: seq<State>, events: seq<Event>, i: nat, j: nat, w: nat, build: Build)
    requires j <= |events| < |states|
  {
    exists n :: i < n < j && BeginsBuild(states, events, n, w, build)
  }

  ghost predicate BeginsBuild(states: seq<State>, events: seq<Event>, n: nat, w: nat, build: Build)
    requires n < |events| < |states|
  {
    && events[n] == StartBuild(w)
    && w in states[n + 1].runs && states[n + 1].runs[w].Constructing? && states[n + 1].runs[w].build == build
    && build.id == states[n].builds && build.began == states[n].state.refreshGeneration
  }

  predicate Rebuilding(r: Run) {
    r.Chosen? || r.Constructing? || r.Using? || r.Gone?
  }

  lemma {:induction false} ChosenRebuilds(states: seq<State>, events: seq<Event>, i: nat, j: nat, w: nat)
    requires IsRun(states, events) && i < j < |states|
    requires w in states[i + 1].runs && states[i + 1].runs[w].Chosen?
    ensures w in states[j].runs && Rebuilding(states[j].runs[w])
    ensures states[j].runs[w].Constructing? || states[j].runs[w].Using? ==>
              OwnBuild(states, events, i, j, w, states[j].runs[w].build)
    decreases j
  {
    if i + 1 < j {
      ChosenRebuilds(states, events, i, j - 1, w);
      var s, e := states[j - 1], events[j - 1];
      assert states[j] == Apply(s, e);
      if e == StartBuild(w) {
        assert BeginsBuild(states, events, j - 1, w, states[j].runs[w].build);
      } else if s.runs[w].Constructing? || s.runs[w].Using? {
        var n :| i < n < j - 1 && BeginsBuild(states, events, n, w, s.runs[w].build);
      }
    }
  }

  /** A run whose second probe sees a change uses a stack it built itself, begun after that probe. */
  lemma ChangeIsRebuilt(states: seq<State>, events: seq<Event>, i: nat, j: nat, w: nat)
    requires IsRun(states, events) && i < j < |states| && events[i] == Reprobe(w, true)
    requires w in states[j].runs && states[j].runs[w].Using?
    ensures OwnBuild(states, events, i, j, w, states[j].runs[w].build)
  {
    assert Enabled(states[i], events[i]);
    ChosenRebuilds(states, events, i, j, w);
  }

  /** A run that reuses after the gate takes the stack stored at that moment, and stores nothing. */
  lemma ReuseTakesStored(states: seq<State>, events: seq<Event>, i: nat, w: nat)
    requires IsRun(states, events) && i < |events| && events[i] == ReadShared(w)
    ensures w in states[i + 1].runs && states[i + 1].runs[w].Using?
    ensures states[i + 1].runs[w].build == states[i].state.shared && states[i + 1].state == states[i].state
    ensures states[i + 1].builds == states[i].builds
  {
    assert Enabled(states[i], events[i]);
  }
}
