/**
  Publishing a bundle into a destination directory (scripts/snapshot_compat.py:
  `publication_lock`, `publish_bundle`, `write_sidecar`, `check_bundle`).

  Any number of publishers interleave over one destination. Each file-system call is one
  step; copying a file takes two, so a crash may leave it torn. Any publisher may raise or
  die at any step. A lock directory is removed by hand only once its owner is gone.
 */
module Publication {
  import opened Bytes
  import opened Fnv
  import opened Wrappers

  const MANIFEST: string := "libdeno-snapshot.manifest"
  const REQUIRED: seq<string> := [MANIFEST, "CLI_SNAPSHOT.bin", "EXTENSION_RESIDUAL_SOURCES.rs"]
  const FORMAT_LINE: string := "format=libdeno-snapshot-2\n"

  type Contents = seq<byte>

  /** What a publisher was given: its staged files in listing order, and the sidecar's fields. */
  datatype Job = Job(files: map<string, Contents>, order: seq<string>, target: string, identity: string)

  datatype Copy = Torn | Whole(contents: Contents)

  datatype OwnerFile = Token(publisher: nat) | TornOwner

  /** `holder` is who made the directory; the file system only shows `owner`. */
  datatype Lock = Lock(holder: nat, owner: Option<OwnerFile>)

  datatype Sidecar = Sidecar(writer: nat, target: string, manifestHash: string, identity: string)

  datatype Disk = Disk(lock: Option<Lock>, files: map<string, Copy>, sidecar: Option<Sidecar>, temps: set<nat>)

  // ---- what a job must be ----

  predicate Spells(bytes: seq<byte>, text: string) {
    |bytes| == |text| && forall i :: 0 <= i < |text| ==> bytes[i] as int == text[i] as int
  }

  predicate HasFormat(manifest: Contents) {
    exists i :: 0 <= i <= |manifest| && FormatAt(manifest[i..])
  }

  predicate FormatAt(bytes: seq<byte>) {
    |FORMAT_LINE| <= |bytes| && Spells(bytes[..|FORMAT_LINE|], FORMAT_LINE)
  }

  /** The checks made before the lock is taken. */
  predicate Acceptable(job: Job) {
    && (forall i :: 0 <= i < |REQUIRED| ==> REQUIRED[i] in job.files)
    && MANIFEST in job.files && HasFormat(job.files[MANIFEST])
  }

  /** The file at that name is complete and as it was staged. */
  predicate Holds(files: map<string, Copy>, job: Job, name: string) {
    name in job.files && name in files && files[name] == Whole(job.files[name])
  }

  /** What the checks ask for: the three files by name, and the format line somewhere in the manifest. */
  lemma AcceptableMeans(job: Job)
    ensures Acceptable(job) <==>
      && "libdeno-snapshot.manifest" in job.files && "CLI_SNAPSHOT.bin" in job.files
      && "EXTENSION_RESIDUAL_SOURCES.rs" in job.files
      && exists before, line, after ::
           job.files["libdeno-snapshot.manifest"] == before + line + after && Spells(line, "format=libdeno-snapshot-2\n")
  {
    assert REQUIRED[0] == MANIFEST && REQUIRED[1] == "CLI_SNAPSHOT.bin" && REQUIRED[2] == "EXTENSION_RESIDUAL_SOURCES.rs";
    if MANIFEST in job.files {
      FormatMeans(job.files[MANIFEST]);
    }
  }

  lemma FormatMeans(manifest: Contents)
    ensures HasFormat(manifest) <==>
      exists before, line, after :: manifest == before + line + after && Spells(line, FORMAT_LINE)
  {
    if HasFormat(manifest) {
      var i :| 0 <= i <= |manifest| && FormatAt(manifest[i..]);
      var rest := manifest[i..];
      var line, after := rest[..|FORMAT_LINE|], rest[|FORMAT_LINE|..];
      assert rest == line + after;
      assert manifest == manifest[..i] + line + after;
    }
    if before, line, after :| manifest == before + line + after && Spells(line, FORMAT_LINE) {
      FormatIsAt(manifest, before, line, after);
    }
  }

  lemma FormatIsAt(manifest: Contents, before: Contents, line: Contents, after: Contents)
    requires manifest == before + line + after && Spells(line, FORMAT_LINE)
    ensures HasFormat(manifest)
  {
    var rest := manifest[|before|..];
    assert rest == line + after;
    assert rest[..|FORMAT_LINE|] == line;
  }

  /** The listing of the staging directory names exactly its files. */
  ghost predicate Listed(job: Job) {
    forall f :: f in job.files <==> f in job.order
  }

  function SidecarOf(p: nat, job: Job): Sidecar
    requires MANIFEST in job.files
  {
    Sidecar(p, job.target, Fingerprint(job.files[MANIFEST]), job.identity)
  }

  /** Every file of the job not in `todo` is at the destination, whole and unmodified. */
  ghost predicate CopiedBut(files: map<string, Copy>, job: Job, todo: seq<string>) {
    forall f :: f in job.files && f !in todo ==> f in files && files[f] == Whole(job.files[f])
  }

  ghost predicate Complete(files: map<string, Copy>, job: Job) {
    CopiedBut(files, job, [])
  }

  // ---- the protocol ----

  datatype Phase =
    | Idle
    | Locked
    | OwnerFailed
    | Owned
    | Copying(todo: seq<string>)
    | CopyOpen(todo: seq<string>)
    | TempOpen
    | TempWhole
    | Replaced
    | Releasing(ok: bool)
    | OwnerGone(ok: bool)
    | Ended(ok: bool)
    | Crashed

  datatype Publisher = Publisher(job: Job, phase: Phase)

  datatype State = State(disk: Disk, publishers: map<nat, Publisher>)

  datatype Event =
    | Refuse(p: nat)
    | MakeLock(p: nat)
    | LockBusy(p: nat)
    | WriteOwner(p: nat)
    | WriteOwnerFails(p: nat, left: bool)
    | DropUnownedLock(p: nat)
    | UnlinkSidecar(p: nat)
    | OpenCopy(p: nat)
    | CloseCopy(p: nat)
    | MakeTemp(p: nat)
    | WriteTemp(p: nat)
    | ReplaceSidecar(p: nat)
    | LeaveBody(p: nat)
    | Raise(p: nat, cleaned: bool)
    | UnlinkOwner(p: nat)
    | NotOwner(p: nat)
    | RemoveLock(p: nat)
    | ReleaseFails(p: nat)
    | Crash(p: nat)
    | RemoveStaleLock

  /** Between making the lock directory and giving it up. */
  predicate Holding(phase: Phase) {
    !(phase.Idle? || phase.Ended? || phase.Crashed?)
  }

  predicate InBody(phase: Phase) {
    phase.Owned? || phase.Copying? || phase.CopyOpen? || phase.TempOpen? || phase.TempWhole? || phase.Replaced?
  }

  /** Past the removal of the old sidecar, before the new one is in place. */
  predicate Writing(phase: Phase) {
    phase.Copying? || phase.CopyOpen? || phase.TempOpen? || phase.TempWhole?
  }

  function Owner(s: State): Option<OwnerFile> {
    if s.disk.lock.Some? then s.disk.lock.value.owner else None
  }

  predicate Enabled(s: State, e: Event) {
    if e.RemoveStaleLock? then
      && s.disk.lock.Some?
      && var h := s.disk.lock.value.holder;
        h !in s.publishers || !Holding(s.publishers[h].phase)
    else
      && e.p in s.publishers
      && var (job, phase) := (s.publishers[e.p].job, s.publishers[e.p].phase);
        match e
        case Refuse(_) => phase.Idle? && !Acceptable(job)
        case MakeLock(_) => phase.Idle? && Acceptable(job) && s.disk.lock.None?
        case LockBusy(_) => phase.Idle? && Acceptable(job) && s.disk.lock.Some?
        case WriteOwner(_) => phase.Locked?
        case WriteOwnerFails(_, _) => phase.Locked?
        case DropUnownedLock(_) => phase.OwnerFailed?
        case UnlinkSidecar(_) => phase.Owned?
        case OpenCopy(_) => phase.Copying? && phase.todo != []
        case CloseCopy(_) => phase.CopyOpen? && phase.todo != [] && phase.todo[0] in job.files
        case MakeTemp(_) => phase == Copying([]) && MANIFEST in job.files
        case WriteTemp(_) => phase.TempOpen?
        case ReplaceSidecar(_) => phase.TempWhole? && MANIFEST in job.files
        case LeaveBody(_) => phase.Replaced?
        case Raise(_, _) => InBody(phase)
        case UnlinkOwner(_) => phase.Releasing? && Owner(s) == Some(Token(e.p))
        case NotOwner(_) => phase.Releasing? && Owner(s) != Some(Token(e.p))
        case RemoveLock(_) => phase.OwnerGone?
        case ReleaseFails(_) => phase.Releasing? || phase.OwnerGone?
        case Crash(_) => !phase.Ended? && !phase.Crashed?
        case RemoveStaleLock => false
  }

  function WithOwner(d: Disk, owner: Option<OwnerFile>): Disk {
    if d.lock.None? then d else d.(lock := Some(d.lock.value.(owner := owner)))
  }

  /** `rmdir`: only an empty lock directory goes. */
  function LockRemoved(d: Disk): Disk {
    if d.lock.Some? && d.lock.value.owner.None? then d.(lock := None) else d
  }

  function NextDisk(d: Disk, e: Event, pub: Publisher): Disk
    requires e.CloseCopy? ==> pub.phase.CopyOpen? && pub.phase.todo != [] && pub.phase.todo[0] in pub.job.files
    requires e.OpenCopy? ==> pub.phase.Copying? && pub.phase.todo != []
    requires e.ReplaceSidecar? ==> MANIFEST in pub.job.files
  {
    match e
    case MakeLock(p) => d.(lock := Some(Lock(p, None)))
    case WriteOwner(p) => WithOwner(d, Some(Token(p)))
    case WriteOwnerFails(p, left) => if left then WithOwner(d, Some(TornOwner)) else d
    case DropUnownedLock(p) => LockRemoved(d)
    case UnlinkSidecar(p) => d.(sidecar := None)
    case OpenCopy(p) => d.(files := d.files[pub.phase.todo[0] := Torn])
    case CloseCopy(p) => d.(files := d.files[pub.phase.todo[0] := Whole(pub.job.files[pub.phase.todo[0]])])
    case MakeTemp(p) => d.(temps := d.temps + {p})
    case ReplaceSidecar(p) => d.(sidecar := Some(SidecarOf(p, pub.job)), temps := d.temps - {p})
    case Raise(p, cleaned) => if cleaned then d.(temps := d.temps - {p}) else d
    case UnlinkOwner(p) => WithOwner(d, None)
    case RemoveLock(p) => LockRemoved(d)
    case RemoveStaleLock => d.(lock := None)
    case _ => d
  }

  function NextPhase(d: Disk, e: Event, pub: Publisher): Phase
    requires e.CloseCopy? ==> pub.phase.CopyOpen? && pub.phase.todo != []
    requires e.OpenCopy? ==> pub.phase.Copying?
    requires e.UnlinkOwner? || e.NotOwner? ==> pub.phase.Releasing?
    requires e.RemoveLock? ==> pub.phase.OwnerGone?
  {
    match e
    case Refuse(_) => Ended(false)
    case MakeLock(_) => Locked
    case LockBusy(_) => Ended(false)
    case WriteOwner(_) => Owned
    case WriteOwnerFails(_, _) => OwnerFailed
    case DropUnownedLock(_) => Ended(false)
    case UnlinkSidecar(_) => Copying(pub.job.order)
    case OpenCopy(_) => CopyOpen(pub.phase.todo)
    case CloseCopy(_) => Copying(pub.phase.todo[1..])
    case MakeTemp(_) => TempOpen
    case WriteTemp(_) => TempWhole
    case ReplaceSidecar(_) => Replaced
    case LeaveBody(_) => Releasing(true)
    case Raise(_, _) => Releasing(false)
    case UnlinkOwner(_) => OwnerGone(pub.phase.ok)
    case NotOwner(_) => Ended(pub.phase.ok)
    case RemoveLock(_) => Ended(pub.phase.ok && (d.lock.Some? ==> d.lock.value.owner.None?))
    case ReleaseFails(_) => Ended(false)
    case Crash(_) => Crashed
    case RemoveStaleLock => pub.phase
  }

  function Apply(s: State, e: Event): State
    requires Enabled(s, e)
  {
    if e.RemoveStaleLock? then s.(disk := s.disk.(lock := None))
    else
      var pub := s.publishers[e.p];
      State(NextDisk(s.disk, e, pub), s.publishers[e.p := pub.(phase := NextPhase(s.disk, e, pub))])
  }

  ghost predicate Initial(s: State) {
    && s.disk.lock.None? && s.disk.sidecar.None? && s.disk.temps == {}
    && forall p :: p in s.publishers ==> s.publishers[p].phase.Idle? && Listed(s.publishers[p].job)
  }

  ghost predicate IsRun(run: seq<State>, events: seq<Event>) {
    && |run| == |events| + 1
    && Initial(run[0])
    && forall i :: 0 <= i < |events| ==> Enabled(run[i], events[i]) && run[i + 1] == Apply(run[i], events[i])
  }

  // ---- the invariant ----

  /** A holder's own view of the lock directory. */
  ghost predicate LockFits(d: Disk, p: nat, phase: Phase) {
    Holding(phase) ==>
      && d.lock.Some? && d.lock.value.holder == p
      && (phase.Locked? || phase.OwnerGone? ==> d.lock.value.owner.None?)
      && (InBody(phase) || phase.Releasing? ==> d.lock.value.owner == Some(Token(p)))
  }

  ghost predicate FilesFit(d: Disk, pub: Publisher) {
    && (pub.phase.Copying? || pub.phase.CopyOpen? ==>
          && CopiedBut(d.files, pub.job, pub.phase.todo)
          && (forall f :: f in pub.phase.todo ==> f in pub.job.files))
    && (pub.phase.TempOpen? || pub.phase.TempWhole? ==> Complete(d.files, pub.job))
  }

  ghost predicate PublisherFits(d: Disk, p: nat, pub: Publisher) {
    && Listed(pub.job)
    && (Holding(pub.phase) ==> Acceptable(pub.job))
    && LockFits(d, p, pub.phase)
    && (Writing(pub.phase) ==> d.sidecar.None?)
    && FilesFit(d, pub)
    && (p in d.temps ==> MayLeaveTemp(pub.phase))
  }

  predicate MayLeaveTemp(phase: Phase) {
    || phase.TempOpen? || phase.TempWhole? || phase.Crashed?
    || phase == Releasing(false) || phase == OwnerGone(false) || phase == Ended(false)
  }

  /** A lock nobody is using was left by a crash or a failed clean-up. */
  ghost predicate LockExplained(s: State) {
    s.disk.lock.Some? ==>
      && var h := s.disk.lock.value.holder;
      && h in s.publishers
      && (Holding(s.publishers[h].phase) || s.publishers[h].phase.Crashed? || s.publishers[h].phase == Ended(false))
  }

  /** The sidecar describes one publisher's files, all of them there. */
  ghost predicate SidecarTrue(s: State) {
    s.disk.sidecar.Some? ==>
      && var w := s.disk.sidecar.value.writer;
      && w in s.publishers
      && var job := s.publishers[w].job;
      && Acceptable(job)
      && s.disk.sidecar.value == SidecarOf(w, job)
      && Complete(s.disk.files, job)
  }

  ghost predicate Fits(s: State, p: nat) {
    p in s.publishers ==> PublisherFits(s.disk, p, s.publishers[p])
  }

  ghost predicate Inv(s: State) {
    && (forall p :: Fits(s, p))
    && LockExplained(s)
    && SidecarTrue(s)
    && forall t :: t in s.disk.temps ==> t in s.publishers
  }

  /** At most one publisher is inside the lock. */
  lemma OneHolder(s: State, p: nat, q: nat)
    requires Inv(s) && p in s.publishers && q in s.publishers
    ensures Holding(s.publishers[p].phase) && Holding(s.publishers[q].phase) ==> p == q
  {
    assert Fits(s, p) && Fits(s, q);
  }

  /** What a step does to the publisher that takes it. */
  lemma ActorKeepsFit(d: Disk, e: Event, pub: Publisher, s: State)
    requires Enabled(s, e) && !e.RemoveStaleLock? && s.disk == d && s.publishers[e.p] == pub
    requires PublisherFits(d, e.p, pub)
    ensures PublisherFits(NextDisk(d, e, pub), e.p, pub.(phase := NextPhase(d, e, pub)))
  {
    if e.CloseCopy? {
      CopyCloses(d.files, pub.job, pub.phase.todo);
    }
  }

  lemma CopyCloses(files: map<string, Copy>, job: Job, todo: seq<string>)
    requires CopiedBut(files, job, todo) && todo != [] && todo[0] in job.files
    ensures CopiedBut(files[todo[0] := Whole(job.files[todo[0]])], job, todo[1..])
  {
    assert todo == [todo[0]] + todo[1..];
  }

  /** A step leaves alone what any other publisher relies on. */
  lemma OthersKeepFit(s: State, e: Event, q: nat)
    requires Enabled(s, e) && Inv(s) && q in s.publishers
    requires e.RemoveStaleLock? || q != e.p
    ensures PublisherFits(Apply(s, e).disk, q, s.publishers[q])
  {
    assert Fits(s, q);
    if !e.RemoveStaleLock? {
      assert Fits(s, e.p);
      OneHolder(s, e.p, q);
    }
  }

  lemma SidecarStaysTrue(s: State, e: Event)
    requires Enabled(s, e) && Inv(s)
    ensures SidecarTrue(Apply(s, e))
  {
    if !e.RemoveStaleLock? {
      assert Fits(s, e.p);
    }
  }

  lemma LockStaysExplained(s: State, e: Event)
    requires Enabled(s, e) && Inv(s)
    ensures LockExplained(Apply(s, e))
  {
    if !e.RemoveStaleLock? {
      assert Fits(s, e.p);
    }
  }

  lemma StepKeepsInv(s: State, e: Event)
    requires Enabled(s, e) && Inv(s)
    ensures Inv(Apply(s, e))
  {
    var s' := Apply(s, e);
    forall q: nat
      ensures Fits(s', q)
    {
      assert Fits(s, q);
      if q !in s'.publishers {
      } else if e.RemoveStaleLock? || q != e.p {
        OthersKeepFit(s, e, q);
      } else {
        ActorKeepsFit(s.disk, e, s.publishers[q], s);
      }
    }
    SidecarStaysTrue(s, e);
    LockStaysExplained(s, e);
  }

  lemma {:induction false} RunKeepsInv(run: seq<State>, events: seq<Event>, i: nat)
    requires IsRun(run, events) && i < |run|
    ensures Inv(run[i])
  {
    if i > 0 {
      RunKeepsInv(run, events, i - 1);
      StepKeepsInv(run[i - 1], events[i - 1]);
    }
  }

  // ---- the main results ----

  /**
    In every reachable state a sidecar means that all files of the one publisher that
    wrote it are at the destination, unmodified, and that its hash is the manifest's.
   */
  lemma SidecarMeansWholeBundle(run: seq<State>, events: seq<Event>, i: nat)
    requires IsRun(run, events) && i < |run| && run[i].disk.sidecar.Some?
    ensures var s := run[i];
      var w := s.disk.sidecar.value.writer;
      && w in s.publishers
      && var job := s.publishers[w].job;
      && MANIFEST in job.files && Complete(s.disk.files, job)
      && s.disk.sidecar.value == Sidecar(w, job.target, Fingerprint(job.files[MANIFEST]), job.identity)
      && Holds(s.disk.files, job, "libdeno-snapshot.manifest") && Holds(s.disk.files, job, "CLI_SNAPSHOT.bin")
      && Holds(s.disk.files, job, "EXTENSION_RESIDUAL_SOURCES.rs")
  {
    RunKeepsInv(run, events, i);
    AcceptableMeans(run[i].publishers[run[i].disk.sidecar.value.writer].job);
  }

  lemma PublishersExclude(run: seq<State>, events: seq<Event>, i: nat, p: nat, q: nat)
    requires IsRun(run, events) && i < |run| && p in run[i].publishers && q in run[i].publishers
    requires Holding(run[i].publishers[p].phase) && Holding(run[i].publishers[q].phase)
    ensures p == q
  {
    RunKeepsInv(run, events, i);
    OneHolder(run[i], p, q);
  }

  /** A lock nobody is inside was left behind by a publisher that died or failed, never by a success. */
  lemma StaleLocksComeFromFailures(run: seq<State>, events: seq<Event>, i: nat)
    requires IsRun(run, events) && i < |run| && run[i].disk.lock.Some?
    requires forall p :: p in run[i].publishers ==> !Holding(run[i].publishers[p].phase)
    ensures var h := run[i].disk.lock.value.holder;
      && h in run[i].publishers
      && (run[i].publishers[h].phase.Crashed? || run[i].publishers[h].phase == Ended(false))
  {
    RunKeepsInv(run, events, i);
  }

  predicate PastReplace(phase: Phase) {
    phase.Replaced? || phase == Releasing(true) || phase == OwnerGone(true) || phase == Ended(true)
  }

  ghost predicate PublishedAt(s: State, p: nat, job: Job) {
    MANIFEST in job.files && s.disk.sidecar == Some(SidecarOf(p, job)) && Complete(s.disk.files, job)
  }

  /** Whoever reports success did put its own sidecar in place, over its complete bundle. */
  lemma {:induction false} SuccessWasPublished(run: seq<State>, events: seq<Event>, i: nat, p: nat)
    requires IsRun(run, events) && i < |run| && p in run[i].publishers
    requires PastReplace(run[i].publishers[p].phase)
    ensures exists j :: 0 <= j <= i && PublishedAt(run[j], p, run[i].publishers[p].job)
  {
    assert i > 0;
    var s, e := run[i - 1], events[i - 1];
    assert Enabled(s, e) && run[i] == Apply(s, e);
    if e.ReplaceSidecar? && e.p == p {
      RunKeepsInv(run, events, i);
      assert PublishedAt(run[i], p, run[i].publishers[p].job);
    } else {
      SuccessWasPublished(run, events, i - 1, p);
    }
  }

  // ---- importing ----

  /** `check_bundle` with provenance required: the manifest bytes were read before the sidecar. */
  predicate CheckAccepts(manifest: Contents, sidecar: Option<Sidecar>, target: string, identity: string) {
    && HasFormat(manifest)
    && sidecar.Some?
    && sidecar.value.target == target
    && sidecar.value.manifestHash == Fingerprint(manifest)
    && sidecar.value.identity == identity
  }

  /**
    The bundle a publisher has just put in place is accepted for its target and identity,
    and for no other.
   */
  lemma PublishedBundleIsAccepted(s: State, p: nat, job: Job, target: string, identity: string)
    requires PublishedAt(s, p, job) && Acceptable(job)
    ensures MANIFEST in s.disk.files && s.disk.files[MANIFEST] == Whole(job.files[MANIFEST])
    ensures CheckAccepts(s.disk.files[MANIFEST].contents, s.disk.sidecar, target, identity) <==>
              target == job.target && identity == job.identity
  {
  }

  /**
    Whatever an importer read before, if it accepts the sidecar of a reachable state then
    the whole bundle is there, made for its target and identity, with a manifest of the
    same fingerprint; a read manifest one byte off the published one is always refused.
   */
  lemma AcceptedBundleIsWhole(
      run: seq<State>, events: seq<Event>, i: nat, manifest: Contents, target: string, identity: string)
    requires IsRun(run, events) && i < |run|
    requires CheckAccepts(manifest, run[i].disk.sidecar, target, identity)
    ensures var s := run[i];
      var w := s.disk.sidecar.value.writer;
      && w in s.publishers
      && var job := s.publishers[w].job;
      && Complete(s.disk.files, job) && job.target == target && job.identity == identity
      && MANIFEST in job.files
      && var published := job.files[MANIFEST];
        && Fingerprint(published) == Fingerprint(manifest)
        && !(|published| == |manifest| && exists k :: OneByteAt(published, manifest, k))
  {
    SidecarMeansWholeBundle(run, events, i);
    var job := run[i].publishers[run[i].disk.sidecar.value.writer].job;
    var published := job.files[MANIFEST];
    if k :| |published| == |manifest| && OneByteAt(published, manifest, k) {
      OneByteChangesTheFingerprint(published, manifest, k);
    }
  }

  ghost predicate OneByteAt(s: Contents, t: Contents, k: nat) {
    |s| == |t| && k < |s| && s[k] != t[k] && forall j :: 0 <= j < |s| && j != k ==> s[j] == t[j]
  }
}
