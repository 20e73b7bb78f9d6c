/**
  The descriptor table of the process and the calls capture makes on it, following
  POSIX.1-2017 (`pipe`, `dup2`, `fcntl` with F_DUPFD_CLOEXEC, F_GETFD and F_SETFD, `close`).

  `fault` decides, call by call, whether a call that could succeed is interrupted or
  fails; every failure point of the code above it is some choice of `fault`.
 */
module FdTables {
  import opened Wrappers

  datatype File = Original(n: nat) | PipeRead(pipe: nat) | PipeWrite(pipe: nat)

  datatype Desc = Desc(file: File, cloexec: bool)

  type Table = map<nat, Desc>

  datatype Fault = NoFault | Interrupted | Failed

  class FdTable {
    var fds: Table
    var pipes: nat          // pipes created so far
    var calls: nat          // fallible calls made so far
    const fault: nat -> Fault
    const quiet: nat        // no call after this one is interrupted

    ghost predicate Valid()
      reads this
    {
      forall i :: i >= quiet ==> fault(i) != Interrupted
    }

    constructor (fds: Table, fault: nat -> Fault, quiet: nat)
      requires forall i :: i >= quiet ==> fault(i) != Interrupted
      ensures Valid() && this.fds == fds && this.fault == fault && this.quiet == quiet && calls == 0
    {
      this.fds := fds;
      this.fault := fault;
      this.quiet := quiet;
      pipes, calls := 0, 0;
    }

    /** Some call in the range was interrupted or failed. */
    ghost predicate Disturbed(from: nat, to: nat) {
      exists i :: from <= i < to && fault(i) != NoFault
    }

    /** Some call in the range failed outright. */
    ghost predicate Broke(from: nat, to: nat) {
      exists i :: from <= i < to && fault(i) == Failed
    }

    method NextFault() returns (f: Fault)
      modifies this`calls
      ensures calls == old(calls) + 1 && f == fault(old(calls))
    {
      f := fault(calls);
      calls := calls + 1;
    }

    /** The lowest free descriptor not below `min`. */
    method LowestFree(min: nat) returns (fd: nat)
      ensures fd >= min && fd !in fds && forall n :: min <= n < fd ==> n in fds
    {
      fd := min;
      ghost var left := fds.Keys;
      while fd in fds
        invariant fd >= min && forall n :: min <= n < fd ==> n in fds
        invariant forall n :: n in fds && n >= fd ==> n in left
        decreases left
      {
        left := left - {fd};
        fd := fd + 1;
      }
    }

    /** `fcntl(fd, F_DUPFD_CLOEXEC, min)`. */
    method DupAbove(fd: nat, min: nat) returns (r: Option<nat>)
      modifies this`fds, this`calls
      ensures calls == old(calls) + 1
      ensures r.None? ==> fds == old(fds) && (fault(old(calls)) != NoFault || fd !in old(fds))
      ensures r.Some? ==>
                && fd in old(fds) && r.value >= min && r.value !in old(fds)
                && fds == old(fds)[r.value := Desc(old(fds)[fd].file, true)]
    {
      var f := NextFault();
      if f != NoFault || fd !in fds {
        return None;
      }
      var n := LowestFree(min);
      fds := fds[n := Desc(fds[fd].file, true)];
      return Some(n);
    }

    /** `fcntl(fd, F_GETFD)`. */
    method GetFlags(fd: nat) returns (r: Option<bool>)
      modifies this`calls
      ensures calls == old(calls) + 1
      ensures r.None? ==> fault(old(calls)) != NoFault || fd !in fds
      ensures r.Some? ==> fd in fds && r.value == fds[fd].cloexec
    {
      var f := NextFault();
      if f != NoFault || fd !in fds {
        return None;
      }
      return Some(fds[fd].cloexec);
    }

    /** `fcntl(fd, F_SETFD, flags)`. */
    method SetFlags(fd: nat, cloexec: bool) returns (f: Fault)
      modifies this`fds, this`calls
      ensures calls == old(calls) + 1 && (fd in old(fds) ==> f == fault(old(calls))) && (fd !in old(fds) ==> f != NoFault)
      ensures f != NoFault ==> fds == old(fds)
      ensures f == NoFault ==> fd in old(fds) && fds == old(fds)[fd := old(fds)[fd].(cloexec := cloexec)]
    {
      f := NextFault();
      if f == NoFault {
        if fd !in fds {
          return Failed;
        }
        fds := fds[fd := fds[fd].(cloexec := cloexec)];
      }
    }

    /** `pipe`: two fresh descriptors, the lowest free ones, without close-on-exec. */
    method Pipe() returns (r: Option<(nat, nat)>)
      modifies this`fds, this`calls, this`pipes
      ensures calls == old(calls) + 1 && pipes >= old(pipes)
      ensures r.None? ==> fds == old(fds) && fault(old(calls)) != NoFault
      ensures r.Some? ==>
                && r.value.0 !in old(fds) && r.value.1 !in old(fds) && r.value.0 != r.value.1
                && fds == old(fds)[r.value.0 := Desc(PipeRead(old(pipes)), false)][r.value.1 := Desc(PipeWrite(old(pipes)), false)]
    {
      var f := NextFault();
      if f != NoFault {
        return None;
      }
      var before := fds;
      var read := LowestFree(0);
      fds := fds[read := Desc(PipeRead(pipes), false)];
      var write := LowestFree(0);
      fds := fds[write := Desc(PipeWrite(pipes), false)];
      assert write !in before && write != read;
      pipes := pipes + 1;
      return Some((read, write));
    }

    /** `dup2(from, to)`: `to` names the file of `from`, with close-on-exec cleared. */
    method Dup2(from: nat, to: nat) returns (f: Fault)
      requires from != to
      modifies this`fds, this`calls
      ensures calls == old(calls) + 1 && (from in old(fds) ==> f == fault(old(calls))) && (from !in old(fds) ==> f != NoFault)
      ensures f != NoFault ==> fds == old(fds)
      ensures f == NoFault ==> from in old(fds) && fds == old(fds)[to := Desc(old(fds)[from].file, false)]
    {
      f := NextFault();
      if f == NoFault {
        if from !in fds {
          return Failed;
        }
        fds := fds[to := Desc(fds[from].file, false)];
      }
    }

    /** `close`, only ever of an open descriptor. */
    method Close(fd: nat)
      requires fd in fds
      modifies this`fds
      ensures fds == old(fds) - {fd}
    {
      fds := fds - {fd};
    }
  }
}
