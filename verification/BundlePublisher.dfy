/**
  `publish_bundle` as it runs (scripts/snapshot_compat.py): each file-system call below
  updates the disk in place and is one step of the protocol in `Publication`.

  `fails` decides which calls raise, so every exceptional path is some choice of it.
 */
module BundlePublisher {
  import opened Publication
  import opened Wrappers

  datatype Call =
    | OpeningOwner
    | WritingOwner
    | UnlinkingSidecar
    | OpeningCopy(left: nat)
    | ClosingCopy(left: nat)
    | MakingTemp
    | WritingTemp
    | ReplacingSidecar
    | UnlinkingTemp
    | ReadingOwner
    | RemovingLock

  datatype Outcome = Refused | Busy | Published | Raised

  class Destination {
    var disk: Disk
    ghost var publishers: map<nat, Publisher>

    ghost function View(): State
      reads this
    {
      State(disk, publishers)
    }

    constructor (files: map<string, Copy>, publishers: map<nat, Publisher>)
      requires forall p :: p in publishers ==> publishers[p].phase.Idle? && Listed(publishers[p].job)
      ensures Initial(View()) && Inv(View()) && disk.files == files && this.publishers == publishers
    {
      disk := Disk(None, files, None, {});
      this.publishers := publishers;
    }

    /** One call: the disk changes, and the caller's place in the protocol with it. */
    method Perform(e: Event, changed: Disk)
      requires Inv(View()) && Enabled(View(), e) && changed == Apply(View(), e).disk
      modifies this
      ensures View() == Apply(old(View()), e) && Inv(View())
    {
      StepKeepsInv(View(), e);
      publishers := Apply(View(), e).publishers;
      disk := changed;
    }

    /** `lock.mkdir()`. */
    method MakeLockDirectory(p: nat) returns (made: bool)
      requires Inv(View()) && p in publishers && publishers[p].phase.Idle? && Acceptable(publishers[p].job)
      modifies this
      ensures made <==> old(disk).lock.None?
      ensures View() == Apply(old(View()), if made then MakeLock(p) else LockBusy(p)) && Inv(View())
    {
      made := disk.lock.None?;
      if made {
        Perform(MakeLock(p), disk.(lock := Some(Lock(p, None))));
      } else {
        Perform(LockBusy(p), disk);
      }
    }

    /** The loop that copies the staged files. */
    method CopyFiles(p: nat, job: Job, fails: Call -> bool) returns (ok: bool)
      requires Inv(View()) && p in publishers && publishers[p] == Publisher(job, Copying(job.order))
      modifies this
      ensures Inv(View()) && InBodyOf(p, job, old(publishers))
      ensures ok ==> publishers[p].phase == Copying([])
      ensures publishers[p].phase != Replaced
      ensures disk.sidecar == old(disk).sidecar && OnlyTouched(job, old(disk), disk)
      ensures (forall c :: !fails(c)) ==> ok
    {
      var todo := job.order;
      while todo != []
        invariant Inv(View()) && InBodyOf(p, job, old(publishers))
        invariant publishers[p].phase == Copying(todo)
        invariant disk.sidecar == old(disk).sidecar && OnlyTouched(job, old(disk), disk)
        decreases |todo|
      {
        assert Fits(View(), p);
        var f := todo[0];
        if fails(OpeningCopy(|todo|)) {
          return false;
        }
        Perform(OpenCopy(p), disk.(files := disk.files[f := Torn]));
        if fails(ClosingCopy(|todo|)) {
          return false;
        }
        Perform(CloseCopy(p), disk.(files := disk.files[f := Whole(job.files[f])]));
        todo := todo[1..];
      }
      ok := true;
    }

    /** Inside the `with` block as publisher `p`; nobody else has moved. */
    ghost predicate InBodyOf(p: nat, job: Job, before: map<nat, Publisher>)
      reads this
    {
      && p in before && p in publishers
      && publishers == before[p := Publisher(job, publishers[p].phase)]
      && InBody(publishers[p].phase)
    }

    /**
      `write_sidecar`: a temporary file, then an atomic rename. The last `unlink` runs after
      the rename too, and an exception there leaves the new sidecar in place.
     */
    method WriteSidecar(p: nat, job: Job, fails: Call -> bool) returns (ok: bool)
      requires Inv(View()) && p in publishers && publishers[p] == Publisher(job, Copying([]))
      modifies this
      ensures Inv(View()) && InBodyOf(p, job, old(publishers))
      ensures ok <==> publishers[p].phase == Replaced && !fails(UnlinkingTemp)
      ensures publishers[p].phase == Replaced ==> MANIFEST in job.files && disk.sidecar == Some(SidecarOf(p, job))
      ensures publishers[p].phase != Replaced ==> disk.sidecar == old(disk).sidecar
      ensures disk.files == old(disk).files
      ensures (forall c :: !fails(c)) ==> ok
    {
      assert Fits(View(), p);
      if fails(MakingTemp) {
        return false;
      }
      Perform(MakeTemp(p), disk.(temps := disk.temps + {p}));
      if fails(WritingTemp) {
        return false;
      }
      Perform(Event.WriteTemp(p), disk);
      if fails(ReplacingSidecar) {
        return false;
      }
      Perform(ReplaceSidecar(p), disk.(sidecar := Some(SidecarOf(p, job)), temps := disk.temps - {p}));
      ok := !fails(UnlinkingTemp);
    }

    /** Leaving the `with` block: give the lock back if it is still this publisher's. */
    method Release(p: nat, job: Job, raised: bool, fails: Call -> bool) returns (ok: bool)
      requires Inv(View()) && p in publishers && publishers[p] == Publisher(job, Releasing(!raised))
      modifies this
      ensures Inv(View()) && publishers == old(publishers)[p := Publisher(job, Ended(ok))]
      ensures disk.sidecar == old(disk).sidecar && disk.files == old(disk).files
      ensures ok ==> !raised && disk.lock.None?
      ensures !raised && (forall c :: !fails(c)) ==> ok
    {
      assert Fits(View(), p);
      if fails(ReadingOwner) {
        Perform(ReleaseFails(p), disk);
        return false;
      }
      Perform(UnlinkOwner(p), WithOwner(disk, None));
      assert Fits(View(), p);
      if fails(RemovingLock) {
        Perform(ReleaseFails(p), disk);
        return false;
      }
      Perform(RemoveLock(p), LockRemoved(disk));
      ok := !raised;
    }

    /** The `with` block of `publish_bundle`. */
    method Body(p: nat, job: Job, fails: Call -> bool) returns (ok: bool)
      requires Inv(View()) && p in publishers && publishers[p] == Publisher(job, Owned)
      modifies this
      ensures Inv(View()) && InBodyOf(p, job, old(publishers))
      ensures ok ==> publishers[p].phase == Replaced
      ensures publishers[p].phase == Replaced ==> MANIFEST in job.files && disk.sidecar == Some(SidecarOf(p, job))
      ensures publishers[p].phase != Replaced ==>
        disk.sidecar.None? || (disk.sidecar == old(disk).sidecar && disk.files == old(disk).files)
      ensures OnlyTouched(job, old(disk), disk)
      ensures (forall c :: !fails(c)) ==> ok
    {
      if fails(UnlinkingSidecar) {
        return false;
      }
      Perform(UnlinkSidecar(p), disk.(sidecar := None));
      ok := CopyFiles(p, job, fails);
      if ok {
        ok := WriteSidecar(p, job, fails);
      }
    }

    /** The checks, the lock directory and its owner file. */
    method Enter(p: nat, job: Job, fails: Call -> bool) returns (stopped: Option<Outcome>)
      requires Inv(View()) && p in publishers && publishers[p] == Publisher(job, Idle)
      modifies this
      ensures Inv(View())
      ensures publishers == old(publishers)[p := Publisher(job, if stopped.Some? then Ended(false) else Owned)]
      ensures stopped == Some(Refused) <==> !Acceptable(job)
      ensures stopped == Some(Busy) <==> Acceptable(job) && old(disk).lock.Some?
      ensures stopped == Some(Raised) ==> fails(WritingOwner)
      ensures stopped != Some(Published)
      ensures stopped == Some(Refused) || stopped == Some(Busy) ==> disk == old(disk)
      ensures disk.sidecar == old(disk).sidecar && disk.files == old(disk).files
    {
      if !Acceptable(job) {
        Perform(Refuse(p), disk);
        return Some(Refused);
      }
      var made := MakeLockDirectory(p);
      if !made {
        return Some(Busy);
      }
      var written := TakeOwnership(p, job, fails);
      stopped := if written then None else Some(Raised);
    }

    /** Writing the owner file; when that fails the directory is removed if it is empty. */
    method TakeOwnership(p: nat, job: Job, fails: Call -> bool) returns (written: bool)
      requires Inv(View()) && p in publishers && publishers[p] == Publisher(job, Locked)
      modifies this
      ensures Inv(View())
      ensures publishers == old(publishers)[p := Publisher(job, if written then Owned else Ended(false))]
      ensures written <==> !fails(WritingOwner)
      ensures disk.sidecar == old(disk).sidecar && disk.files == old(disk).files
    {
      written := !fails(WritingOwner);
      if written {
        Perform(WriteOwner(p), WithOwner(disk, Some(Token(p))));
      } else {
        var left := !fails(OpeningOwner);
        Perform(WriteOwnerFails(p, left), if left then WithOwner(disk, Some(TornOwner)) else disk);
        Perform(DropUnownedLock(p), LockRemoved(disk));
      }
    }

    /** Leaving the `with` block, normally or by an exception. */
    method Leave(p: nat, job: Job, ok: bool, fails: Call -> bool) returns (released: bool)
      requires Inv(View()) && p in publishers && publishers[p].job == job && InBody(publishers[p].phase)
      requires ok ==> publishers[p].phase == Replaced
      modifies this
      ensures Inv(View()) && publishers == old(publishers)[p := Publisher(job, Ended(released))]
      ensures disk.sidecar == old(disk).sidecar && disk.files == old(disk).files
      ensures released ==> ok && disk.lock.None?
      ensures ok && (forall c :: !fails(c)) ==> released
    {
      if ok {
        Perform(LeaveBody(p), disk);
      } else {
        var cleaned := !fails(UnlinkingTemp);
        Perform(Raise(p, cleaned), if cleaned then disk.(temps := disk.temps - {p}) else disk);
      }
      released := Release(p, job, !ok, fails);
    }

    /**
      `publish_bundle`. Refused or busy leaves the disk alone; success leaves the complete
      bundle under its own sidecar and no lock; an exception leaves either the old bundle
      untouched, or no sidecar, or the new bundle complete.
     */
    method Publish(p: nat, job: Job, fails: Call -> bool) returns (outcome: Outcome)
      requires Inv(View()) && p in publishers && publishers[p] == Publisher(job, Idle)
      modifies this
      ensures Inv(View()) && publishers == old(publishers)[p := Publisher(job, Ended(outcome.Published?))]
      ensures outcome.Refused? <==> !Acceptable(job)
      ensures outcome.Busy? <==> Acceptable(job) && old(disk).lock.Some?
      ensures outcome.Refused? || outcome.Busy? ==> disk == old(disk)
      ensures outcome.Published? ==> disk.lock.None? && PublishedAt(View(), p, job)
      ensures outcome.Raised? ==>
        || (disk.sidecar == old(disk).sidecar && disk.files == old(disk).files)
        || disk.sidecar.None?
        || PublishedAt(View(), p, job)
      ensures OnlyTouched(job, old(disk), disk)
      ensures Acceptable(job) && old(disk).lock.None? && (forall c :: !fails(c)) ==> outcome.Published?
    {
      var stopped := Enter(p, job, fails);
      if stopped.Some? {
        return stopped.value;
      }
      var released := WithLock(p, job, fails);
      outcome := if released then Published else Raised;
    }

    /** The `with` block and leaving it. */
    method WithLock(p: nat, job: Job, fails: Call -> bool) returns (released: bool)
      requires Inv(View()) && p in publishers && publishers[p] == Publisher(job, Owned)
      modifies this
      ensures Inv(View()) && publishers == old(publishers)[p := Publisher(job, Ended(released))]
      ensures released ==> disk.lock.None? && PublishedAt(View(), p, job)
      ensures !released ==>
        || (disk.sidecar == old(disk).sidecar && disk.files == old(disk).files)
        || disk.sidecar.None?
        || PublishedAt(View(), p, job)
      ensures OnlyTouched(job, old(disk), disk)
      ensures (forall c :: !fails(c)) ==> released
    {
      var ok := Body(p, job, fails);
      released := Leave(p, job, ok, fails);
    }
  }

  /** Files outside the job are as they were. */
  ghost predicate OnlyTouched(job: Job, before: Disk, after: Disk) {
    forall f :: f !in job.files ==>
      (f in after.files <==> f in before.files) && (f in after.files ==> after.files[f] == before.files[f])
  }
}
