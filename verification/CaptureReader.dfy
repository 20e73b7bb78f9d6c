/**
  The reader thread of a captured stream and the collection of what it sent
  (the reader loop of `StreamCapture::new` and `collect_blocks_until`, src/output.rs).
 */
module CaptureReader {
  import opened Wrappers
  import opened Bytes

  /** What one turn of the reader loop meets: the wait, the read and the stop flag after it. */
  datatype Turn =
    | StopSeen                                  // the wait, or the check after the read, sees the stop flag
    | WaitFailed
    | ReadFailed
    | ReadInterrupted
    | EndOfFile
    | Data(bytes: seq<byte>)

  datatype Message = Block(bytes: seq<byte>) | ReadError

  predicate Ends(t: Turn) {
    t.StopSeen? || t.WaitFailed? || t.ReadFailed? || t.EndOfFile?
  }

  predicate Fails(t: Turn) {
    t.WaitFailed? || t.ReadFailed?
  }

  function BytesOf(t: Turn): seq<byte> {
    if t.Data? then t.bytes else []
  }

  /** The stream as read, up to the turn that ends it. */
  function Stream(turns: seq<Turn>): seq<byte> {
    if turns == [] || Ends(turns[0]) then []
    else BytesOf(turns[0]) + Stream(turns[1..])
  }

  /** The first turn that ends the loop, or the length when none does. */
  function EndAt(turns: seq<Turn>): (n: nat)
    ensures n <= |turns|
    ensures n < |turns| ==> Ends(turns[n])
    ensures forall i :: 0 <= i < n ==> !Ends(turns[i])
  {
    if turns == [] || Ends(turns[0]) then 0
    else
      var n := EndAt(turns[1..]);
      assert forall i :: 0 < i < n + 1 ==> turns[i] == turns[1..][i - 1];
      n + 1
  }

  function Capped(s: seq<byte>, cap: Option<nat>): seq<byte> {
    if cap.Some? && |s| > cap.value then s[..cap.value] else s
  }

  predicate Exceeds(s: seq<byte>, cap: Option<nat>) {
    cap.Some? && |s| > cap.value
  }

  lemma {:induction false} StreamStep(turns: seq<Turn>, i: nat)
    requires i < |turns| && forall j :: 0 <= j <= i ==> !Ends(turns[j])
    ensures Stream(turns[..i + 1]) == Stream(turns[..i]) + BytesOf(turns[i])
  {
    assert turns[..i + 1] == turns[..i] + [turns[i]];
    StreamGrows(turns[..i], turns[i]);
  }

  lemma {:induction false} StreamGrows(turns: seq<Turn>, last: Turn)
    requires !Ends(last) && forall j :: 0 <= j < |turns| ==> !Ends(turns[j])
    ensures Stream(turns + [last]) == Stream(turns) + BytesOf(last)
  {
    if turns == [] {
      StreamOfFirst(last, []);
      assert [last] + [] == turns + [last];
    } else {
      var first, rest := turns[0], turns[1..];
      StreamGrows(rest, last);
      assert [first] + (rest + [last]) == turns + [last];
      StreamOfFirst(first, rest + [last]);
      BytesAssociate(BytesOf(first), Stream(rest), BytesOf(last));
    }
  }

  lemma StreamOfFirst(first: Turn, rest: seq<Turn>)
    requires !Ends(first)
    ensures Stream([first] + rest) == BytesOf(first) + Stream(rest)
  {
    assert ([first] + rest)[1..] == rest;
  }

  lemma BytesAssociate(a: seq<byte>, b: seq<byte>, c: seq<byte>)
    ensures a + (b + c) == (a + b) + c
  {
  }

  lemma {:induction false} StreamPrefix(turns: seq<Turn>, n: nat)
    requires n <= |turns| && n == EndAt(turns)
    ensures Stream(turns) == Stream(turns[..n])
  {
    if turns != [] && !Ends(turns[0]) {
      StreamPrefix(turns[1..], n - 1);
      assert turns[..n][1..] == turns[1..][..n - 1];
    }
  }

  /** What the loop's variables say about the stream read so far. */
  ghost predicate Tracks(s: seq<byte>, cap: Option<nat>, blocks: seq<seq<byte>>, total: nat, discarding: bool) {
    && Flatten(blocks) == Capped(s, cap)
    && (discarding <==> Exceeds(s, cap))
    && (!discarding ==> total == |s|)
  }

  /** One block arrives: it is sent, cut at the cap, or dropped. */
  method TakeBlock(blocks: seq<seq<byte>>, total: nat, discarding: bool, bytes: seq<byte>, cap: Option<nat>, ghost s: seq<byte>)
    returns (blocks': seq<seq<byte>>, total': nat, discarding': bool)
    requires Tracks(s, cap, blocks, total, discarding)
    ensures Tracks(s + bytes, cap, blocks', total', discarding')
    ensures |blocks'| <= |blocks| + 1
  {
    blocks', total', discarding' := blocks, total, discarding;
    if discarding {
      assert (s + bytes)[..cap.value] == s[..cap.value];
      return;
    }
    total' := total + |bytes|;
    if cap.Some? && total' > cap.value {
      var over := total' - cap.value;
      var keep := |bytes| - over;
      if keep > 0 {
        FlattenAppend(blocks, bytes[..keep]);
        blocks' := blocks + [bytes[..keep]];
      }
      assert (s + bytes)[..cap.value] == s + bytes[..keep];
      discarding' := true;
      return;
    }
    FlattenAppend(blocks, bytes);
    blocks' := blocks + [bytes];
  }

  /**
    The reader loop.  Whatever the sizes of the reads, the blocks sent are the first
    `cap` bytes of the stream, and the overflow flag says whether there was more.
   */
  method ReadLoop(turns: seq<Turn>, cap: Option<nat>)
    returns (blocks: seq<seq<byte>>, overflow: bool, failed: bool, ended: bool)
    ensures Flatten(blocks) == Capped(Stream(turns), cap)
    ensures overflow <==> Exceeds(Stream(turns), cap)
    ensures ended <==> EndAt(turns) < |turns|
    ensures failed <==> ended && Fails(turns[EndAt(turns)])
    ensures |blocks| <= EndAt(turns)
  {
    blocks := [];
    var total: nat := 0;
    var discarding := false;
    var i := 0;
    ghost var n := EndAt(turns);
    StreamPrefix(turns, n);
    while i < |turns| && !Ends(turns[i])
      invariant |blocks| <= i <= n
      invariant Tracks(Stream(turns[..i]), cap, blocks, total, discarding)
    {
      StreamStep(turns, i);
      if turns[i].Data? {
        blocks, total, discarding := TakeBlock(blocks, total, discarding, turns[i].bytes, cap, Stream(turns[..i]));
      }
      i := i + 1;
    }
    overflow := discarding;
    ended := i < |turns|;
    failed := ended && (turns[i].WaitFailed? || turns[i].ReadFailed?);
  }

  /** What goes through the channel: the blocks, then the error if the loop failed. */
  function Sent(blocks: seq<seq<byte>>, failed: bool): seq<Message> {
    if blocks == [] then (if failed then [ReadError] else [])
    else [Block(blocks[0])] + Sent(blocks[1..], failed)
  }

  lemma {:induction false} SentShape(blocks: seq<seq<byte>>, failed: bool)
    ensures var m := Sent(blocks, failed);
            && |m| == |blocks| + (if failed then 1 else 0)
            && (forall i :: 0 <= i < |blocks| ==> m[i] == Block(blocks[i]))
            && (failed ==> m[|blocks|] == ReadError)
  {
    if blocks != [] {
      SentShape(blocks[1..], failed);
    }
  }

  /**
    `collect_blocks_until`: `patience` receives happen before the deadline, and the channel
    is disconnected after `sent` only when the reader is gone (`closed`).  The answer is the
    whole of what was sent, or an error; never a part of it.
   */
  method Collect(sent: seq<Message>, closed: bool, patience: nat) returns (r: Option<seq<byte>>)
    ensures r.Some? <==> closed && patience > |sent| && forall i :: 0 <= i < |sent| ==> sent[i].Block?
    ensures r.Some? ==> forall blocks :: sent == Sent(blocks, false) ==> r.value == Flatten(blocks)
  {
    var out := [];
    ghost var taken: seq<seq<byte>> := [];
    var i := 0;
    while true
      invariant i <= |sent| && i <= patience
      invariant |taken| == i && forall j :: 0 <= j < i ==> sent[j] == Block(taken[j])
      invariant out == Flatten(taken)
      decreases |sent| - i
    {
      if i >= patience {
        return None;
      }
      if i == |sent| {
        if !closed {
          return None;
        }
        break;
      }
      if sent[i].ReadError? {
        return None;
      }
      FlattenAppend(taken, sent[i].bytes);
      out := out + sent[i].bytes;
      taken := taken + [sent[i].bytes];
      i := i + 1;
    }
    r := Some(out);
    forall blocks | sent == Sent(blocks, false)
      ensures out == Flatten(blocks)
    {
      SentShape(blocks, false);
      assert taken == blocks;
    }
  }

  /**
    Reader and collector together: a result is returned only after the reader ended without
    error, and it is exactly the capped stream with the right truncation flag.
   */
  method Capture(turns: seq<Turn>, cap: Option<nat>, patience: nat) returns (r: Option<(seq<byte>, bool)>)
    ensures r.Some? ==>
              && EndAt(turns) < |turns| && !Fails(turns[EndAt(turns)])
              && r.value.0 == Capped(Stream(turns), cap)
              && (r.value.1 <==> Exceeds(Stream(turns), cap))
    ensures EndAt(turns) < |turns| && !Fails(turns[EndAt(turns)]) && patience > EndAt(turns) ==> r.Some?
  {
    var blocks, overflow, failed, ended := ReadLoop(turns, cap);
    SentShape(blocks, failed);
    assert failed ==> Sent(blocks, failed)[|blocks|].ReadError?;
    var collected := Collect(Sent(blocks, failed), ended, patience);
    if collected.None? {
      return None;
    }
    return Some((collected.value, overflow));
  }
}
