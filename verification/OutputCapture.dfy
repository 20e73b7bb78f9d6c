/**
  Output capture as a transaction on the descriptor table (`OutputCapture`,
  `StreamCapture`, `SavedFd` and `restore_target`, src/output.rs, Unix).

  Every method takes the table it works on; wherever a call fails, the table ends up as
  it was, or the process has aborted (`aborted`), as `abort_restore` does.
 */
module OutputCapture {
  import opened Wrappers
  import opened FdTables

  const MAX_ACTIVE_CAPTURE_READERS: nat := 64

  class StreamCapture {
    const target: nat
    const flags: bool
    const read: nat          // the pipe end the reader thread owns
    var saved: Option<nat>   // taken by the first restore

    constructor (target: nat, flags: bool, read: nat, saved: nat)
      ensures this.target == target && this.flags == flags && this.read == read && this.saved == Some(saved)
    {
      this.target, this.flags, this.read := target, flags, read;
      this.saved := Some(saved);
    }
  }

  /** The budget of reader threads. */
  class Readers {
    var active: nat

    constructor (active: nat)
      ensures this.active == active
    {
      this.active := active;
    }
  }

  // ---- what the table looks like ----

  /** `target` captured over `base`: it writes into a pipe, its old file is kept at `saved`. */
  function Installed(base: Table, target: nat, saved: nat, read: nat, pipe: nat): Table
    requires target in base
  {
    base[saved := Desc(base[target].file, true)][target := Desc(PipeWrite(pipe), true)][read := Desc(PipeRead(pipe), true)]
  }

  function Restored(f: Table, target: nat, saved: nat, flags: bool): Table
    requires saved in f
  {
    f[target := Desc(f[saved].file, flags)] - {saved}
  }

  /** `s` captures `target` over `base`, and `f` is the table that results. */
  ghost predicate Captures(base: Table, f: Table, s: StreamCapture, pipe: nat)
    reads s
  {
    && s.target in base && s.flags == base[s.target].cloexec
    && s.saved.Some? && s.saved.value !in base && s.saved.value >= 3
    && s.read !in base && s.read >= 3 && s.read != s.saved.value
    && f == Installed(base, s.target, s.saved.value, s.read, pipe)
  }

  /** Restoring the target and closing the reader's end undoes a capture. */
  lemma RestoreUndoes(base: Table, target: nat, saved: nat, read: nat, pipe: nat)
    requires target in base && saved !in base && read !in base && saved != read
    ensures Restored(Installed(base, target, saved, read, pipe), target, saved, base[target].cloexec) - {read} == base
    ensures Restored(Installed(base, target, saved, read, pipe) - {read}, target, saved, base[target].cloexec) == base
  {
  }

  /** Whatever else happened to the table meanwhile is left as it is. */
  lemma RestoreTouchesOnlyItsOwn(base: Table, now: Table, target: nat, saved: nat, read: nat, pipe: nat, fd: nat)
    requires target in base && saved !in base && read !in base && saved != read
    requires saved in now && now[saved] == Installed(base, target, saved, read, pipe)[saved]
    ensures var after := Restored(now, target, saved, base[target].cloexec) - {read};
            && (fd == target ==> fd in after && after[fd] == base[target])
            && (fd != target && fd != saved && fd != read ==>
                  (fd in after <==> fd in now) && (fd in now ==> after[fd] == now[fd]))
            && saved !in after && read !in after
  {
  }

  // ---- restoring one target ----

  /** `restore_target`: both calls are retried while interrupted. */
  method RestoreTarget(k: FdTable, target: nat, saved: nat, flags: bool) returns (ok: bool)
    requires k.Valid() && saved in k.fds && saved != target
    modifies k`fds, k`calls
    ensures k.Valid()
    ensures ok ==> k.fds == old(k.fds)[target := Desc(old(k.fds)[saved].file, flags)]
    ensures k.calls >= old(k.calls) && (!ok ==> k.Broke(old(k.calls), k.calls))
  {
    var f := k.Dup2(saved, target);
    while f == Interrupted
      invariant k.Valid() && f == k.fault(k.calls - 1) && k.calls > old(k.calls)
      invariant f != NoFault ==> k.fds == old(k.fds)
      invariant f == NoFault ==> k.fds == old(k.fds)[target := Desc(old(k.fds)[saved].file, false)]
      decreases k.quiet - k.calls
    {
      f := k.Dup2(saved, target);
    }
    if f != NoFault {
      return false;
    }
    ghost var mid := k.fds;
    f := k.SetFlags(target, flags);
    while f == Interrupted
      invariant k.Valid() && f == k.fault(k.calls - 1) && k.calls > old(k.calls)
      invariant f != NoFault ==> k.fds == mid
      invariant f == NoFault ==> k.fds == mid[target := mid[target].(cloexec := flags)]
      decreases k.quiet - k.calls
    {
      f := k.SetFlags(target, flags);
    }
    ok := f == NoFault;
  }

  // ---- setting up one stream ----

  /** `set_cloexec`: read the flags, write them back with FD_CLOEXEC. */
  method SetCloexec(k: FdTable, fd: nat) returns (ok: bool)
    requires fd in k.fds
    modifies k`fds, k`calls
    ensures ok ==> k.fds == old(k.fds)[fd := old(k.fds)[fd].(cloexec := true)]
    ensures !ok ==> k.fds == old(k.fds) && k.Disturbed(old(k.calls), k.calls)
    ensures k.calls >= old(k.calls)
  {
    var flags := k.GetFlags(fd);
    if flags.None? {
      return false;
    }
    var f := k.SetFlags(fd, true);
    return f == NoFault;
  }

  /** A pipe end below 3 moves up, so that closed stdio slots stay closed. */
  method Relocate(k: FdTable, fd: nat) returns (r: Option<nat>)
    requires fd in k.fds
    modifies k`fds, k`calls
    ensures r.None? ==> k.fds == old(k.fds) && k.Disturbed(old(k.calls), k.calls)
    ensures k.calls >= old(k.calls)
    ensures r.Some? ==>
              && r.value >= 3 && (if fd >= 3 then r.value == fd else r.value !in old(k.fds))
              && k.fds == if fd >= 3 then old(k.fds)
                          else old(k.fds)[r.value := Desc(old(k.fds)[fd].file, true)] - {fd}
  {
    if fd >= 3 {
      return Some(fd);
    }
    r := k.DupAbove(fd, 3);
    if r.Some? {
      k.Close(fd);
    }
  }

  /** `f` is `base` with a pipe added. */
  ghost predicate HasPipe(base: Table, f: Table, read: nat, write: nat, pipe: nat) {
    && read != write && read !in base && write !in base
    && read in f && write in f
    && f[read].file == PipeRead(pipe) && f[write].file == PipeWrite(pipe)
    && f - {read, write} == base
  }

  /** A pipe with both ends at 3 or above and close-on-exec, or the table as it was. */
  method OpenPipe(k: FdTable) returns (r: Option<(nat, nat)>, ghost pipe: nat)
    modifies k`fds, k`calls, k`pipes
    ensures r.None? ==> k.fds == old(k.fds) && k.Disturbed(old(k.calls), k.calls)
    ensures k.calls >= old(k.calls)
    ensures r.Some? ==>
              && HasPipe(old(k.fds), k.fds, r.value.0, r.value.1, pipe)
              && r.value.0 >= 3 && r.value.1 >= 3
              && k.fds[r.value.0].cloexec && k.fds[r.value.1].cloexec
  {
    pipe := k.pipes;
    ghost var base := k.fds;
    var ends := k.Pipe();
    if ends.None? {
      return None, pipe;
    }
    var read, write := ends.value.0, ends.value.1;
    assert HasPipe(base, k.fds, read, write, pipe);
    var moved := Relocate(k, read);
    if moved.None? {
      k.Close(read);
      k.Close(write);
      assert k.fds == base;
      return None, pipe;
    }
    read := moved.value;
    assert HasPipe(base, k.fds, read, write, pipe);
    moved := Relocate(k, write);
    if moved.None? {
      k.Close(read);
      k.Close(write);
      assert k.fds == base;
      return None, pipe;
    }
    write := moved.value;
    assert HasPipe(base, k.fds, read, write, pipe);
    var ok := HidePipe(k, base, read, write, pipe);
    return if ok then Some((read, write)) else None, pipe;
  }

  /** Close-on-exec on both ends, or neither end left. */
  method HidePipe(k: FdTable, ghost base: Table, read: nat, write: nat, ghost pipe: nat) returns (ok: bool)
    requires HasPipe(base, k.fds, read, write, pipe)
    modifies k`fds, k`calls
    ensures k.calls >= old(k.calls)
    ensures ok ==> HasPipe(base, k.fds, read, write, pipe) && k.fds[read].cloexec && k.fds[write].cloexec
    ensures !ok ==> k.fds == base && k.Disturbed(old(k.calls), k.calls)
  {
    ok := SetCloexec(k, read);
    if ok {
      ok := SetCloexec(k, write);
    }
    assert HasPipe(base, k.fds, read, write, pipe);
    if !ok {
      k.Close(read);
      k.Close(write);
      assert k.fds == base;
    }
  }

  datatype Setup = Captured(stream: StreamCapture) | SetupFailed | Aborted

  /**
    `StreamCapture::new`: `dup` is the saved copy of `target`, which it takes over.  When
    it fails without aborting, the saved copy is closed and nothing else has changed.
   */
  method NewStream(k: FdTable, readers: Readers, target: nat, dup: nat, spawnFails: bool)
    returns (r: Setup, ghost pipe: nat)
    requires k.Valid() && dup in k.fds && dup >= 3 && target < 3
    requires target in k.fds && k.fds[dup] == Desc(k.fds[target].file, true)
    modifies k`fds, k`calls, k`pipes, readers
    ensures k.Valid()
    ensures r.SetupFailed? ==> k.fds == old(k.fds) - {dup} && readers.active == old(readers.active)
    ensures k.calls >= old(k.calls) && (r.Aborted? ==> k.Broke(old(k.calls), k.calls))
    ensures r.SetupFailed? ==>
              spawnFails || k.Disturbed(old(k.calls), k.calls) || old(readers.active) >= MAX_ACTIVE_CAPTURE_READERS
    ensures r.Captured? ==>
              && fresh(r.stream) && r.stream.target == target && r.stream.saved == Some(dup)
              && Captures(old(k.fds) - {dup}, k.fds, r.stream, pipe)
              && readers.active == old(readers.active) + 1 <= MAX_ACTIVE_CAPTURE_READERS
  {
    ghost var base := k.fds - {dup};
    pipe := 0;
    var flags := k.GetFlags(target);
    if flags.None? || readers.active >= MAX_ACTIVE_CAPTURE_READERS {
      k.Close(dup);
      return SetupFailed, pipe;
    }
    readers.active := readers.active + 1;
    assert k.fds == base[dup := Desc(base[target].file, true)];
    var ends;
    ends, pipe := OpenPipe(k);
    if ends.None? {
      k.Close(dup);
      readers.active := readers.active - 1;
      return SetupFailed, pipe;
    }
    var read, write := ends.value.0, ends.value.1;
    var redirected := Redirect(k, base, target, dup, read, write, flags.value, pipe);
    if !redirected.Redirected? {
      readers.active := readers.active - 1;
      return if redirected.RedirectAborted? then Aborted else SetupFailed, pipe;
    }
    if spawnFails {
      // The closure is dropped, and with it the reader's reservation.
      readers.active := readers.active - 1;
      var ok := RestoreTarget(k, target, dup, flags.value);
      if !ok {
        return Aborted, pipe;
      }
      k.Close(dup);
      k.Close(read);
      assert k.fds == base;
      return SetupFailed, pipe;
    }
    var stream := new StreamCapture(target, flags.value, read, dup);
    return Captured(stream), pipe;
  }

  datatype Redirection = Redirected | RedirectFailed | RedirectAborted

  /** The `dup2` onto the target, its close-on-exec flag and the closing of the spare write end. */
  method Redirect(k: FdTable, ghost base: Table, target: nat, dup: nat, read: nat, write: nat, flags: bool, ghost pipe: nat)
    returns (r: Redirection)
    requires k.Valid() && target < 3 && dup >= 3 && read >= 3 && write >= 3
    requires dup !in base && target in base && base[target].cloexec == flags
    requires dup != read && dup != write && HasPipe(base[dup := Desc(base[target].file, true)], k.fds, read, write, pipe)
    requires k.fds[read].cloexec && k.fds[write].cloexec
    modifies k`fds, k`calls
    ensures k.Valid()
    ensures r.RedirectFailed? ==> k.fds == base && k.Disturbed(old(k.calls), k.calls)
    ensures k.calls >= old(k.calls) && (r.RedirectAborted? ==> k.Broke(old(k.calls), k.calls))
    ensures r.Redirected? ==> k.fds == Installed(base, target, dup, read, pipe)
  {
    assert dup in k.fds && k.fds[dup] == Desc(base[target].file, true) by {
      assert dup in k.fds - {read, write};
    }
    assert k.fds - {dup, read, write} == base by {
      assert k.fds - {dup, read, write} == (k.fds - {read, write}) - {dup};
    }
    ghost var f0 := k.fds;
    var f := k.Dup2(write, target);
    if f != NoFault {
      CloseThree(k, base, dup, read, write);
      return RedirectFailed;
    }
    var ok := SetCloexec(k, target);
    if !ok {
      ok := RestoreTarget(k, target, dup, flags);
      if !ok {
        return RedirectAborted;
      }
      assert k.fds == f0;
      CloseThree(k, base, dup, read, write);
      return RedirectFailed;
    }
    k.Close(write);
    assert k.fds == Installed(base, target, dup, read, pipe);
    return Redirected;
  }

  method CloseThree(k: FdTable, ghost base: Table, dup: nat, read: nat, write: nat)
    requires dup in k.fds && read in k.fds && write in k.fds && dup != read && dup != write && read != write
    requires k.fds - {dup, read, write} == base
    modifies k`fds
    ensures k.fds == base
  {
    k.Close(dup);
    k.Close(read);
    k.Close(write);
    assert k.fds == base;
  }

  // ---- restore and reader exit ----

  /** `StreamCapture::restore`: at most once; the saved descriptor is never used twice. */
  method Restore(k: FdTable, s: StreamCapture) returns (aborted: bool)
    requires k.Valid() && (s.saved.Some? ==> s.saved.value in k.fds && s.saved.value != s.target)
    modifies k`fds, k`calls, s`saved
    ensures k.Valid() && s.saved.None?
    ensures k.calls >= old(k.calls) && (aborted ==> k.Broke(old(k.calls), k.calls))
    ensures old(s.saved).None? ==> !aborted && k.fds == old(k.fds)
    ensures old(s.saved).Some? && !aborted ==>
              k.fds == Restored(old(k.fds), s.target, old(s.saved).value, s.flags)
  {
    if s.saved.None? {
      return false;
    }
    var saved := s.saved.value;
    s.saved := None;
    var ok := RestoreTarget(k, s.target, saved, s.flags);
    if !ok {
      return true;
    }
    k.Close(saved);
    return false;
  }

  /** The reader thread ends: its pipe end first, then its place in the budget. */
  method ReaderExit(k: FdTable, readers: Readers, s: StreamCapture)
    requires s.read in k.fds && readers.active > 0
    modifies k`fds, readers
    ensures k.fds == old(k.fds) - {s.read} && readers.active == old(readers.active) - 1
  {
    k.Close(s.read);
    readers.active := readers.active - 1;
  }

  // ---- both streams ----

  datatype CaptureSetup =
    | Ready(stdout: Option<StreamCapture>, stderr: Option<StreamCapture>)
    | NotReady(draining: Option<StreamCapture>)   // a restored stream whose reader has yet to exit
    | CaptureAborted

  /** One optional stream over `base`, giving `f`. */
  ghost predicate CapturesMaybe(base: Table, f: Table, s: Option<StreamCapture>, target: nat, pipe: nat)
    reads if s.Some? then {s.value} else {}
  {
    if s.Some? then s.value.target == target && Captures(base, f, s.value, pipe) else f == base
  }

  function Count(s: Option<StreamCapture>): nat {
    if s.Some? then 1 else 0
  }

  function Wanted(want: bool): nat {
    if want then 1 else 0
  }

  method SaveBoth(k: FdTable, wantOut: bool, wantErr: bool) returns (ok: bool, out: Option<nat>, err: Option<nat>)
    requires k.Valid()
    modifies k`fds, k`calls
    ensures k.Valid() && k.calls >= old(k.calls)
    ensures !ok ==> k.fds == old(k.fds)
    ensures !ok ==>
              k.Disturbed(old(k.calls), k.calls) || (wantOut && 1 !in old(k.fds)) || (wantErr && 2 !in old(k.fds))
    ensures ok ==>
              && (out.Some? <==> wantOut) && (err.Some? <==> wantErr)
              && (wantOut ==> 1 in old(k.fds) && out.value >= 3 && out.value !in old(k.fds))
              && (wantErr ==> 2 in old(k.fds) && err.value >= 3 && err.value !in old(k.fds))
              && (wantOut && wantErr ==> out.value != err.value)
              && k.fds == WithSaved(WithSaved(old(k.fds), old(k.fds), 1, out), old(k.fds), 2, err)
  {
    ghost var f0 := k.fds;
    out, err := None, None;
    if wantOut {
      out := k.DupAbove(1, 3);
      if out.None? {
        return false, None, None;
      }
    }
    if wantErr {
      err := k.DupAbove(2, 3);
      if err.None? {
        if out.Some? {
          k.Close(out.value);
        }
        assert k.fds == f0;
        return false, None, None;
      }
    }
    ok := true;
  }

  function WithSaved(f: Table, f0: Table, target: nat, saved: Option<nat>): Table {
    if saved.Some? && target in f0 then f[saved.value := Desc(f0[target].file, true)] else f
  }

  /**
    `OutputCapture::new`.  Whatever fails, at whatever call, the table is as before, up to
    the pipe end of one reader thread that is about to exit.
   */
  method NewCapture(k: FdTable, readers: Readers, wantOut: bool, wantErr: bool,
                    flushFails: bool, outSpawnFails: bool, errSpawnFails: bool)
    returns (r: CaptureSetup, ghost mid: Table, ghost outPipe: nat, ghost errPipe: nat)
    requires k.Valid() && readers.active <= MAX_ACTIVE_CAPTURE_READERS
    modifies k`fds, k`calls, k`pipes, readers
    ensures k.Valid() && k.calls >= old(k.calls)
    ensures r.CaptureAborted? ==> k.Broke(old(k.calls), k.calls)
    ensures r.NotReady? ==>
              || flushFails || outSpawnFails || errSpawnFails || k.Disturbed(old(k.calls), k.calls)
              || (wantOut && 1 !in old(k.fds)) || (wantErr && 2 !in old(k.fds))
              || old(readers.active) + Wanted(wantOut) + Wanted(wantErr) > MAX_ACTIVE_CAPTURE_READERS
    ensures r.NotReady? && r.draining.None? ==> k.fds == old(k.fds) && readers.active == old(readers.active)
    ensures r.NotReady? && r.draining.Some? ==>
              && fresh(r.draining.value)
              && r.draining.value.read in k.fds && k.fds - {r.draining.value.read} == old(k.fds)
              && readers.active == old(readers.active) + 1
    ensures r.Ready? ==>
              && (r.stdout.Some? <==> wantOut) && (r.stderr.Some? <==> wantErr)
              && (r.stdout.Some? ==> fresh(r.stdout.value)) && (r.stderr.Some? ==> fresh(r.stderr.value))
              && (r.stdout.Some? && r.stderr.Some? ==> r.stdout.value != r.stderr.value)
              && CapturesMaybe(old(k.fds), mid, r.stdout, 1, outPipe)
              && CapturesMaybe(mid, k.fds, r.stderr, 2, errPipe)
              && readers.active == old(readers.active) + Count(r.stdout) + Count(r.stderr)
  {
    ghost var f0 := k.fds;
    mid, outPipe, errPipe := k.fds, 0, 0;
    if (wantOut || wantErr) && flushFails {
      return NotReady(None), mid, outPipe, errPipe;
    }
    var ok, savedOut, savedErr := SaveBoth(k, wantOut, wantErr);
    if !ok {
      return NotReady(None), mid, outPipe, errPipe;
    }
    var stdout: Option<StreamCapture> := None;
    if wantOut {
      var setup;
      setup, outPipe := NewStream(k, readers, 1, savedOut.value, outSpawnFails);
      if setup.Aborted? {
        return CaptureAborted, mid, outPipe, errPipe;
      }
      if setup.SetupFailed? {
        if savedErr.Some? {
          k.Close(savedErr.value);
        }
        assert k.fds == f0;
        return NotReady(None), mid, outPipe, errPipe;
      }
      stdout := Some(setup.stream);
      mid := Installed(f0, 1, savedOut.value, setup.stream.read, outPipe);
    }
    assert CapturesMaybe(f0, mid, stdout, 1, outPipe);
    assert k.fds == WithSaved(mid, f0, 2, savedErr);
    if !wantErr {
      return Ready(stdout, None), mid, outPipe, errPipe;
    }
    r, errPipe := CaptureStderr(k, readers, f0, mid, stdout, outPipe, savedErr.value, errSpawnFails);
  }

  /** The second stream; when it fails the first is restored. */
  method CaptureStderr(k: FdTable, readers: Readers, ghost f0: Table, ghost mid: Table, stdout: Option<StreamCapture>,
                       ghost outPipe: nat, saved: nat, spawnFails: bool)
    returns (r: CaptureSetup, ghost errPipe: nat)
    requires k.Valid() && CapturesMaybe(f0, mid, stdout, 1, outPipe)
    requires 2 in f0 && saved >= 3 && saved !in mid && k.fds == WithSaved(mid, f0, 2, Some(saved))
    modifies k`fds, k`calls, k`pipes, readers, if stdout.Some? then {stdout.value} else {}
    ensures k.Valid() && k.calls >= old(k.calls)
    ensures r.CaptureAborted? ==> k.Broke(old(k.calls), k.calls)
    ensures r.NotReady? ==>
              spawnFails || k.Disturbed(old(k.calls), k.calls) || old(readers.active) >= MAX_ACTIVE_CAPTURE_READERS
    ensures r.NotReady? ==> r.draining == stdout && readers.active == old(readers.active)
    ensures r.NotReady? && stdout.None? ==> k.fds == f0
    ensures r.NotReady? && stdout.Some? ==>
              stdout.value.read in k.fds && k.fds - {stdout.value.read} == f0
    ensures r.Ready? ==>
              && r.stdout == stdout && r.stderr.Some? && fresh(r.stderr.value)
              && CapturesMaybe(f0, mid, stdout, 1, outPipe)
              && CapturesMaybe(mid, k.fds, r.stderr, 2, errPipe)
              && readers.active == old(readers.active) + 1 <= MAX_ACTIVE_CAPTURE_READERS
  {
    var setup;
    setup, errPipe := NewStream(k, readers, 2, saved, spawnFails);
    if setup.Aborted? {
      return CaptureAborted, errPipe;
    }
    assert WithSaved(mid, f0, 2, Some(saved)) - {saved} == mid;
    if setup.Captured? {
      return Ready(stdout, Some(setup.stream)), errPipe;
    }
    if stdout.None? {
      return NotReady(None), errPipe;
    }
    RestoreUndoes(f0, 1, stdout.value.saved.value, stdout.value.read, outPipe);
    var aborted := Restore(k, stdout.value);
    return if aborted then CaptureAborted else NotReady(stdout), errPipe;
  }

  /** Two captures, restored in the source's order, with the readers gone in either order. */
  lemma BothUndone(f0: Table, s1: nat, r1: nat, p1: nat, s2: nat, r2: nat, p2: nat)
    requires 1 in f0 && 2 in f0
    requires s1 !in f0 && r1 !in f0 && s1 != r1
    requires var mid := Installed(f0, 1, s1, r1, p1); s2 !in mid && r2 !in mid && s2 != r2
    ensures var mid := Installed(f0, 1, s1, r1, p1);
            var f := Installed(mid, 2, s2, r2, p2);
            var g := Restored(f, 1, s1, f0[1].cloexec);
            && s2 in g && mid[2] == f0[2]
            && var h := Restored(g, 2, s2, f0[2].cloexec);
               && h - {r1} - {r2} == f0 && h - {r2} - {r1} == f0 && r1 in h && r2 in h
  {
  }

  method RestoreMaybe(k: FdTable, s: Option<StreamCapture>) returns (aborted: bool)
    requires k.Valid()
    requires s.Some? ==> s.value.saved.Some? && s.value.saved.value in k.fds && s.value.saved.value != s.value.target
    modifies k`fds, k`calls, if s.Some? then {s.value} else {}
    ensures k.Valid() && k.calls >= old(k.calls) && (aborted ==> k.Broke(old(k.calls), k.calls))
    ensures s.None? ==> !aborted && k.fds == old(k.fds)
    ensures s.Some? && !aborted ==>
              k.fds == Restored(old(k.fds), s.value.target, old(s.value.saved).value, s.value.flags)
  {
    aborted := false;
    if s.Some? {
      aborted := Restore(k, s.value);
    }
  }

  /** When a reader ends: at end of stream after the restores, or earlier. */
  datatype Moment = BeforeRestores | BetweenRestores | AfterRestores

  function Leaving(s: Option<StreamCapture>, leaves: Moment, now: Moment): set<nat> {
    if s.Some? && leaves == now then {s.value.read} else {}
  }

  function Left(s: Option<StreamCapture>, leaves: Moment, now: Moment): nat {
    if s.Some? && leaves == now then 1 else 0
  }

  /** Each reader ends at one moment. */
  lemma LeavingOnce(stdout: Option<StreamCapture>, outLeaves: Moment, stderr: Option<StreamCapture>, errLeaves: Moment)
    requires ReadEnd(stdout) !! ReadEnd(stderr)
    ensures var a := Gone(stdout, outLeaves, stderr, errLeaves, BeforeRestores);
            var b := Gone(stdout, outLeaves, stderr, errLeaves, BetweenRestores);
            var c := Gone(stdout, outLeaves, stderr, errLeaves, AfterRestores);
            a + b + c == ReadEnd(stdout) + ReadEnd(stderr) && a !! b && (a + b) !! c
    ensures forall now :: Leaving(stdout, outLeaves, now) !! Leaving(stderr, errLeaves, now)
  {
  }

  method ReaderLeaves(k: FdTable, readers: Readers, s: Option<StreamCapture>, leaves: Moment, now: Moment)
    requires Leaving(s, leaves, now) <= k.fds.Keys && readers.active >= Left(s, leaves, now)
    modifies k`fds, readers
    ensures k.fds == old(k.fds) - Leaving(s, leaves, now)
    ensures readers.active == old(readers.active) - Left(s, leaves, now)
  {
    if s.Some? && leaves == now {
      ReaderExit(k, readers, s.value);
    }
  }

  /** The readers that end now, in either order. */
  method ReadersLeave(k: FdTable, readers: Readers, stdout: Option<StreamCapture>, outLeaves: Moment,
                      stderr: Option<StreamCapture>, errLeaves: Moment, stderrFirst: bool, now: Moment)
    requires Leaving(stdout, outLeaves, now) !! Leaving(stderr, errLeaves, now)
    requires Gone(stdout, outLeaves, stderr, errLeaves, now) <= k.fds.Keys
    requires readers.active >= Left(stdout, outLeaves, now) + Left(stderr, errLeaves, now)
    modifies k`fds, readers
    ensures k.fds == old(k.fds) - Gone(stdout, outLeaves, stderr, errLeaves, now)
    ensures readers.active
         == old(readers.active) - Left(stdout, outLeaves, now) - Left(stderr, errLeaves, now)
  {
    if stderrFirst {
      ReaderLeaves(k, readers, stderr, errLeaves, now);
    }
    ReaderLeaves(k, readers, stdout, outLeaves, now);
    if !stderrFirst {
      ReaderLeaves(k, readers, stderr, errLeaves, now);
    }
  }

  function RestoredMaybe(f: Table, s: Option<StreamCapture>, saved: nat): Table {
    if s.Some? && saved in f then Restored(f, s.value.target, saved, s.value.flags) else f
  }

  function ReadEnd(s: Option<StreamCapture>): set<nat> {
    if s.Some? then {s.value.read} else {}
  }

  function SavedAt(s: Option<StreamCapture>): nat
    reads if s.Some? then {s.value} else {}
  {
    if s.Some? && s.value.saved.Some? then s.value.saved.value else 0
  }

  /** The readers' ends among `gone` closed, before the restores or after them. */
  lemma RestoredWithout(f: Table, s: Option<StreamCapture>, saved: nat, gone: set<nat>)
    requires s.Some? ==> saved in f && saved !in gone && s.value.target !in gone
    ensures RestoredMaybe(f - gone, s, saved) == RestoredMaybe(f, s, saved) - gone
  {
  }

  /** The readers' ends are open, and the saved copy is, apart from them and from the target. */
  ghost predicate Restorable(f: Table, s: Option<StreamCapture>, ends: set<nat>)
    reads if s.Some? then {s.value} else {}
  {
    && ends <= f.Keys
    && (s.Some? ==>
          && s.value.saved.Some? && SavedAt(s) in f && SavedAt(s) !in ends
          && s.value.target !in ends && SavedAt(s) != s.value.target)
  }

  /** The descriptors of a finished set-up are apart, and undoing everything gives `f0`. */
  lemma AllUndone(f0: Table, mid: Table, f: Table, stdout: Option<StreamCapture>, stderr: Option<StreamCapture>,
                  p1: nat, p2: nat)
    requires CapturesMaybe(f0, mid, stdout, 1, p1) && CapturesMaybe(mid, f, stderr, 2, p2)
    ensures var ends := ReadEnd(stdout) + ReadEnd(stderr); var f1 := RestoredMaybe(f, stdout, SavedAt(stdout));
            && ReadEnd(stdout) !! ReadEnd(stderr) && Restorable(f, stdout, ends) && Restorable(f1, stderr, ends)
            && RestoredMaybe(f1, stderr, SavedAt(stderr)) - ends == f0
            && ends <= RestoredMaybe(f1, stderr, SavedAt(stderr)).Keys
  {
    if stdout.Some? && stderr.Some? {
      BothUndone(f0, stdout.value.saved.value, stdout.value.read, p1, stderr.value.saved.value, stderr.value.read, p2);
    } else if stdout.Some? {
      RestoreUndoes(f0, 1, stdout.value.saved.value, stdout.value.read, p1);
    } else if stderr.Some? {
      RestoreUndoes(f0, 2, stderr.value.saved.value, stderr.value.read, p2);
    }
  }

  function Gone(stdout: Option<StreamCapture>, outLeaves: Moment, stderr: Option<StreamCapture>, errLeaves: Moment,
                now: Moment): set<nat> {
    Leaving(stdout, outLeaves, now) + Leaving(stderr, errLeaves, now)
  }

  /**
    The whole transaction: set up, run, restore, and let each reader end before, between
    or after the restores.  Unless the process aborted, the table and the budget are what
    they were.
   */
  method CaptureThenFinish(k: FdTable, readers: Readers, wantOut: bool, wantErr: bool,
                           flushFails: bool, outSpawnFails: bool, errSpawnFails: bool,
                           outLeaves: Moment, errLeaves: Moment, stderrFirst: bool)
    returns (aborted: bool)
    requires k.Valid() && readers.active <= MAX_ACTIVE_CAPTURE_READERS
    modifies k`fds, k`calls, k`pipes, readers
    ensures !aborted ==> k.fds == old(k.fds) && readers.active == old(readers.active)
    ensures aborted ==> k.Broke(old(k.calls), k.calls)
  {
    ghost var f0 := k.fds;
    var r;
    ghost var mid, p1, p2;
    r, mid, p1, p2 := NewCapture(k, readers, wantOut, wantErr, flushFails, outSpawnFails, errSpawnFails);
    if r.CaptureAborted? {
      return true;
    }
    if r.NotReady? {
      if r.draining.Some? {
        ReaderExit(k, readers, r.draining.value);
      }
      return false;
    }
    aborted := Finish(k, readers, f0, mid, p1, p2, r.stdout, r.stderr, outLeaves, errLeaves, stderrFirst);
  }

  method Finish(k: FdTable, readers: Readers, ghost f0: Table, ghost mid: Table, ghost p1: nat, ghost p2: nat,
                stdout: Option<StreamCapture>, stderr: Option<StreamCapture>,
                outLeaves: Moment, errLeaves: Moment, stderrFirst: bool)
    returns (aborted: bool)
    requires k.Valid() && readers.active >= Count(stdout) + Count(stderr)
    requires CapturesMaybe(f0, mid, stdout, 1, p1) && CapturesMaybe(mid, k.fds, stderr, 2, p2)
    requires stdout.Some? && stderr.Some? ==> stdout.value != stderr.value
    modifies k`fds, k`calls, readers
    modifies if stdout.Some? then {stdout.value} else {}, if stderr.Some? then {stderr.value} else {}
    ensures !aborted ==> k.fds == f0 && readers.active == old(readers.active) - Count(stdout) - Count(stderr)
    ensures k.calls >= old(k.calls) && (aborted ==> k.Broke(old(k.calls), k.calls))
  {
    AllUndone(f0, mid, k.fds, stdout, stderr, p1, p2);
    aborted := RestoreBoth(k, readers, stdout, stderr, outLeaves, errLeaves, stderrFirst);
  }

  /** `OutputCapture::restore` with the readers ending around it. */
  method RestoreBoth(k: FdTable, readers: Readers, stdout: Option<StreamCapture>, stderr: Option<StreamCapture>,
                     outLeaves: Moment, errLeaves: Moment, stderrFirst: bool)
    returns (aborted: bool)
    requires k.Valid() && readers.active >= Count(stdout) + Count(stderr)
    requires stdout.Some? && stderr.Some? ==> stdout.value != stderr.value
    requires ReadEnd(stdout) !! ReadEnd(stderr)
    requires Restorable(k.fds, stdout, ReadEnd(stdout) + ReadEnd(stderr))
    requires Restorable(RestoredMaybe(k.fds, stdout, SavedAt(stdout)), stderr, ReadEnd(stdout) + ReadEnd(stderr))
    requires ReadEnd(stdout) + ReadEnd(stderr) <=
             RestoredMaybe(RestoredMaybe(k.fds, stdout, SavedAt(stdout)), stderr, SavedAt(stderr)).Keys
    modifies k`fds, k`calls, readers
    modifies if stdout.Some? then {stdout.value} else {}, if stderr.Some? then {stderr.value} else {}
    ensures !aborted ==>
              && k.fds == RestoredMaybe(RestoredMaybe(old(k.fds), stdout, old(SavedAt(stdout))), stderr, old(SavedAt(stderr)))
                       - (ReadEnd(stdout) + ReadEnd(stderr))
              && readers.active == old(readers.active) - Count(stdout) - Count(stderr)
    ensures k.calls >= old(k.calls) && (aborted ==> k.Broke(old(k.calls), k.calls))
  {
    ghost var f, f1 := k.fds, RestoredMaybe(k.fds, stdout, SavedAt(stdout));
    ghost var a := Gone(stdout, outLeaves, stderr, errLeaves, BeforeRestores);
    ghost var ends := ReadEnd(stdout) + ReadEnd(stderr);
    LeavingOnce(stdout, outLeaves, stderr, errLeaves);
    aborted := LeaveAndRestore(k, readers, stdout, outLeaves, stderr, errLeaves, stderrFirst, BeforeRestores, stdout, f, ends, {});
    if aborted {
      return;
    }
    aborted := LeaveAndRestore(k, readers, stdout, outLeaves, stderr, errLeaves, stderrFirst, BetweenRestores, stderr, f1, ends, a);
    if aborted {
      return;
    }
    ReadersLeave(k, readers, stdout, outLeaves, stderr, errLeaves, stderrFirst, AfterRestores);
  }

  /** The readers that end now, then one restore: `gone` of the ends left the table `f` before. */
  method LeaveAndRestore(k: FdTable, readers: Readers, stdout: Option<StreamCapture>, outLeaves: Moment,
                         stderr: Option<StreamCapture>, errLeaves: Moment, stderrFirst: bool, now: Moment,
                         s: Option<StreamCapture>, ghost f: Table, ghost ends: set<nat>, ghost gone: set<nat>)
    returns (aborted: bool)
    requires k.Valid() && k.fds == f - gone
    requires Leaving(stdout, outLeaves, now) !! Leaving(stderr, errLeaves, now)
    requires gone !! Gone(stdout, outLeaves, stderr, errLeaves, now)
    requires gone + Gone(stdout, outLeaves, stderr, errLeaves, now) <= ends && Restorable(f, s, ends)
    requires readers.active >= Left(stdout, outLeaves, now) + Left(stderr, errLeaves, now)
    modifies k`fds, k`calls, readers, if s.Some? then {s.value} else {}
    ensures k.Valid() && k.calls >= old(k.calls) && (aborted ==> k.Broke(old(k.calls), k.calls))
    ensures !aborted ==>
              k.fds == RestoredMaybe(f, s, old(SavedAt(s))) - (gone + Gone(stdout, outLeaves, stderr, errLeaves, now))
    ensures readers.active == old(readers.active) - Left(stdout, outLeaves, now) - Left(stderr, errLeaves, now)
  {
    ghost var all := gone + Gone(stdout, outLeaves, stderr, errLeaves, now);
    RestoredWithout(f, s, SavedAt(s), all);
    ReadersLeave(k, readers, stdout, outLeaves, stderr, errLeaves, stderrFirst, now);
    assert k.fds == f - all;
    aborted := RestoreMaybe(k, s);
  }
}
