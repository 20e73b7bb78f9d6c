/**
  Captures among other code: while streams are captured, anybody may open, close or
  redirect descriptors, and restores and reader exits come in any order
  (`OutputCapture` and `StreamCapture::restore`, src/output.rs, Unix).
 */
module CaptureInterference {
  import opened Wrappers
  import opened FdTables
  import opened OutputCapture

  /** Where a captured target's file is kept, and the target's own flags. */
  datatype Saved = Saved(at: nat, flags: bool)

  /** The table, the targets still to be restored, and the readers' open ends. */
  datatype World = World(table: Table, waiting: map<nat, Saved>, reading: set<nat>)

  datatype Step =
    | Restores(target: nat)
    | ReaderExits(read: nat)
    | Puts(fd: nat, desc: Desc)   // somebody else opens `fd` or redirects it
    | Removes(fd: nat)            // somebody else closes it

  predicate Keeps(w: World, fd: nat) {
    exists t :: t in w.waiting && w.waiting[t].at == fd
  }

  /** A descriptor only capture knows the number of. */
  predicate Own(w: World, fd: nat) {
    fd in w.reading || Keeps(w, fd)
  }

  /** What capture owns is open, each thing once, and is no captured target. */
  ghost predicate Valid(w: World) {
    && (forall fd :: Own(w, fd) ==> fd in w.table && fd !in w.waiting)
    && (forall fd :: fd in w.reading ==> !Keeps(w, fd))
    && (forall t, u :: t in w.waiting && u in w.waiting && t != u ==> w.waiting[t].at != w.waiting[u].at)
  }

  predicate Enabled(w: World, e: Step) {
    match e
    case Restores(target) => target in w.waiting && w.waiting[target].at in w.table
    case ReaderExits(read) => read in w.reading
    case Puts(fd, _) => !Own(w, fd)
    case Removes(fd) => !Own(w, fd)
  }

  function Apply(w: World, e: Step): World
    requires Enabled(w, e)
  {
    match e
    case Restores(t) => World(Restored(w.table, t, w.waiting[t].at, w.waiting[t].flags), w.waiting - {t}, w.reading)
    case ReaderExits(read) => World(w.table - {read}, w.waiting, w.reading - {read})
    case Puts(fd, desc) => w.(table := w.table[fd := desc])
    case Removes(fd) => w.(table := w.table - {fd})
  }

  predicate Possible(w: World, steps: seq<Step>)
    decreases |steps|
  {
    steps == [] || (Enabled(w, steps[0]) && Possible(Apply(w, steps[0]), steps[1..]))
  }

  function After(w: World, steps: seq<Step>): World
    requires Possible(w, steps)
    decreases |steps|
  {
    if steps == [] then w else After(Apply(w, steps[0]), steps[1..])
  }

  // ---- the table without capture ----

  function At(f: Table, fd: nat): Option<Desc> {
    if fd in f then Some(f[fd]) else None
  }

  /** What `fd` would be if nothing were captured. */
  function SeenAt(w: World, fd: nat): Option<Desc> {
    if fd in w.waiting then
      if w.waiting[fd].at in w.table then Some(Desc(w.table[w.waiting[fd].at].file, w.waiting[fd].flags)) else None
    else if Own(w, fd) then None
    else At(w.table, fd)
  }

  /** Without capture the table would be `f`. */
  ghost predicate Hides(w: World, f: Table) {
    forall fd :: SeenAt(w, fd) == At(f, fd)
  }

  /** What a step does to a table nobody captures; a change to a captured target does not last. */
  function Effect(f: Table, captured: set<nat>, e: Step): Table {
    match e
    case Restores(_) => f
    case ReaderExits(_) => f
    case Puts(fd, desc) => if fd in captured then f else f[fd := desc]
    case Removes(fd) => if fd in captured then f else f - {fd}
  }

  function StillCaptured(captured: set<nat>, e: Step): set<nat> {
    if e.Restores? then captured - {e.target} else captured
  }

  /** The same steps on a table nobody captures. */
  function Replay(f: Table, captured: set<nat>, steps: seq<Step>): Table
    decreases |steps|
  {
    if steps == [] then f
    else Replay(Effect(f, captured, steps[0]), StillCaptured(captured, steps[0]), steps[1..])
  }

  // ---- one step ----

  lemma StepOwns(w: World, e: Step, fd: nat)
    requires Valid(w) && Enabled(w, e)
    ensures Keeps(Apply(w, e), fd) <==> Keeps(w, fd) && !(e.Restores? && fd == w.waiting[e.target].at)
  {
    var w' := Apply(w, e);
    if Keeps(w, fd) {
      var u :| u in w.waiting && w.waiting[u].at == fd;
      assert u in w'.waiting || (e.Restores? && u == e.target);
    }
  }

  lemma StepKeepsValid(w: World, e: Step)
    requires Valid(w) && Enabled(w, e)
    ensures Valid(Apply(w, e)) && Apply(w, e).waiting.Keys == StillCaptured(w.waiting.Keys, e)
  {
    forall fd
      ensures Keeps(Apply(w, e), fd) <==> Keeps(w, fd) && !(e.Restores? && fd == w.waiting[e.target].at)
    {
      StepOwns(w, e, fd);
    }
    assert e.Restores? ==> Own(w, w.waiting[e.target].at);
  }

  lemma StepSeenAt(w: World, e: Step, f: Table, fd: nat)
    requires Valid(w) && Enabled(w, e) && SeenAt(w, fd) == At(f, fd)
    ensures SeenAt(Apply(w, e), fd) == At(Effect(f, w.waiting.Keys, e), fd)
  {
    StepOwns(w, e, fd);
    if fd in w.waiting {
      assert Keeps(w, w.waiting[fd].at);
    }
    if e.Restores? {
      assert Keeps(w, w.waiting[e.target].at);
    }
  }

  // ---- every run ----

  /** Whatever happens, what capture hides is what the same steps give without capture. */
  lemma {:induction false} RunIsReplay(w: World, steps: seq<Step>, f: Table)
    requires Valid(w) && Possible(w, steps) && Hides(w, f)
    ensures Valid(After(w, steps)) && Hides(After(w, steps), Replay(f, w.waiting.Keys, steps))
    decreases |steps|
  {
    if steps != [] {
      var e := steps[0];
      StepKeepsValid(w, e);
      forall fd
        ensures SeenAt(Apply(w, e), fd) == At(Effect(f, w.waiting.Keys, e), fd)
      {
        StepSeenAt(w, e, f, fd);
      }
      RunIsReplay(Apply(w, e), steps[1..], Effect(f, w.waiting.Keys, e));
    }
  }

  lemma NothingHidden(w: World, f: Table)
    requires Hides(w, f) && w.waiting == map[] && w.reading == {}
    ensures w.table == f
  {
    forall fd
      ensures (fd in w.table <==> fd in f) && (fd in f ==> w.table[fd] == f[fd])
    {
      assert SeenAt(w, fd) == At(f, fd);
    }
  }

  /** Both streams captured, the second over the first. */
  ghost predicate BothCaptured(f0: Table, w: World, s1: nat, r1: nat, p1: nat, s2: nat, r2: nat, p2: nat) {
    && 1 in f0 && 2 in f0 && s1 !in f0 && r1 !in f0 && s1 != r1
    && var mid := Installed(f0, 1, s1, r1, p1);
    && s2 !in mid && r2 !in mid && s2 != r2
    && w == World(Installed(mid, 2, s2, r2, p2),
                  map[1 := Saved(s1, f0[1].cloexec), 2 := Saved(s2, f0[2].cloexec)], {r1, r2})
  }

  /** What a successful `OutputCapture::new` with both streams leaves is such a start. */
  lemma SetUpStarts(f0: Table, mid: Table, f: Table, out: StreamCapture, err: StreamCapture, p1: nat, p2: nat)
    requires Captures(f0, mid, out, p1) && Captures(mid, f, err, p2) && out.target == 1 && err.target == 2
    ensures var w := World(f, map[1 := Saved(out.saved.value, out.flags), 2 := Saved(err.saved.value, err.flags)],
                           {out.read, err.read});
            BothCaptured(f0, w, out.saved.value, out.read, p1, err.saved.value, err.read, p2)
  {
    assert mid[2] == f0[2];
  }

  lemma CaptureHides(f0: Table, w: World, s1: nat, r1: nat, p1: nat, s2: nat, r2: nat, p2: nat)
    requires BothCaptured(f0, w, s1, r1, p1, s2, r2, p2)
    ensures Valid(w) && Hides(w, f0)
  {
    forall fd
      ensures Own(w, fd) <==> fd in {s1, s2, r1, r2}
      ensures SeenAt(w, fd) == At(f0, fd)
    {
      CaptureHidesAt(f0, w, s1, r1, p1, s2, r2, p2, fd);
    }
  }

  lemma CaptureHidesAt(f0: Table, w: World, s1: nat, r1: nat, p1: nat, s2: nat, r2: nat, p2: nat, fd: nat)
    requires BothCaptured(f0, w, s1, r1, p1, s2, r2, p2)
    ensures Keeps(w, fd) <==> fd == s1 || fd == s2
    ensures SeenAt(w, fd) == At(f0, fd)
  {
    assert w.waiting[1].at == s1 && w.waiting[2].at == s2;
  }

  /**
    Two nested captures, readers leaving and targets coming back in any order, others
    changing what is theirs at every moment: when capture is over the table is what the
    others alone would have made of the original one.
   */
  lemma CapturesLeaveNoTrace(f0: Table, w: World, steps: seq<Step>,
                             s1: nat, r1: nat, p1: nat, s2: nat, r2: nat, p2: nat)
    requires BothCaptured(f0, w, s1, r1, p1, s2, r2, p2) && Possible(w, steps)
    requires After(w, steps).waiting == map[] && After(w, steps).reading == {}
    ensures After(w, steps).table == Replay(f0, {1, 2}, steps)
  {
    CaptureHides(f0, w, s1, r1, p1, s2, r2, p2);
    RunIsReplay(w, steps, f0);
    assert w.waiting.Keys == {1, 2};
    NothingHidden(After(w, steps), Replay(f0, {1, 2}, steps));
  }
}
