/**
  The permission broker's bounded line framer and its serving loop
  (`read_broker_line` and `serve_broker_connection`, src/permission_broker.rs).
 */
module BrokerFraming {
  import opened Bytes

  const MAX_BROKER_LINE_BYTES: nat := 65536
  const NEWLINE: byte := 10

  // ---- the stream ----

  /** What the next read from the socket gives; no more of them is the end of the stream. */
  datatype Fill = Chunk(bytes: seq<byte>) | Interrupted | Broken

  predicate ReadsSomething(fill: Fill) {
    fill.Chunk? ==> fill.bytes != []
  }

  /** The bytes still to come before the stream ends or breaks. */
  function Coming(fills: seq<Fill>): seq<byte> {
    if fills == [] || fills[0].Broken? then []
    else (if fills[0].Chunk? then fills[0].bytes else []) + Coming(fills[1..])
  }

  predicate Breaks(fills: seq<Fill>) {
    fills != [] && (fills[0].Broken? || Breaks(fills[1..]))
  }

  datatype Filled = Available(bytes: seq<byte>) | InterruptedError | OtherError

  /** `BufReader`: `buffer` is what was read and not consumed. */
  class Reader {
    var buffer: seq<byte>
    var fills: seq<Fill>

    ghost predicate Valid()
      reads this
    {
      forall i :: 0 <= i < |fills| ==> ReadsSomething(fills[i])
    }

    function Unread(): seq<byte>
      reads this
    {
      buffer + Coming(fills)
    }

    constructor (fills: seq<Fill>)
      requires forall i :: 0 <= i < |fills| ==> ReadsSomething(fills[i])
      ensures Valid() && this.fills == fills && Unread() == Coming(fills)
    {
      buffer := [];
      this.fills := fills;
    }

    /** `fill_buf`: reads only when the buffer is empty; an empty result is the end. */
    method FillBuf() returns (r: Filled)
      requires Valid()
      modifies this
      ensures Valid() && Unread() == old(Unread()) && Breaks(fills) == old(Breaks(fills))
      ensures r.Available? ==> r.bytes == buffer
      ensures r.Available? && r.bytes == [] ==> Unread() == [] && !Breaks(fills)
      ensures r.OtherError? ==> Unread() == [] && Breaks(fills)
      ensures r.InterruptedError? ==> |fills| < |old(fills)|
      ensures |fills| <= |old(fills)|
    {
      if buffer != [] || fills == [] {
        return Available(buffer);
      }
      var fill := fills[0];
      match fill {
        case Chunk(bytes) =>
          fills := fills[1..];
          buffer := bytes;
          r := Available(buffer);
        case Interrupted =>
          fills := fills[1..];
          r := InterruptedError;
        case Broken =>
          r := OtherError;
      }
    }

    method Consume(count: nat)
      requires Valid() && count <= |buffer|
      modifies this`buffer
      ensures Valid() && buffer == old(buffer)[count..] && Unread() == old(Unread())[count..]
    {
      buffer := buffer[count..];
    }
  }

  // ---- one line ----

  datatype Frame = Request(line: seq<byte>) | Oversized(prefix: seq<byte>)

  datatype LineRead = Line(frame: Frame) | NoLine | Unterminated | ReadFailed

  /** The position of the first newline, or the length. */
  function FirstNewline(bytes: seq<byte>): (i: nat)
    ensures i <= |bytes|
    ensures forall j :: 0 <= j < i ==> bytes[j] != NEWLINE
    ensures i < |bytes| ==> bytes[i] == NEWLINE
  {
    if bytes == [] || bytes[0] == NEWLINE then 0 else 1 + FirstNewline(bytes[1..])
  }

  /** A line, with its newline, is a request exactly when it fits the limit. */
  function FrameOf(line: seq<byte>): (f: Frame)
  {
    if |line| <= MAX_BROKER_LINE_BYTES then Request(line) else Oversized(line[..MAX_BROKER_LINE_BYTES + 1])
  }

  function NextLine(bytes: seq<byte>, breaks: bool): LineRead {
    var i := FirstNewline(bytes);
    if i < |bytes| then Line(FrameOf(bytes[..i + 1]))
    else if breaks then ReadFailed
    else if bytes == [] then NoLine
    else Unterminated
  }

  function AfterLine(bytes: seq<byte>): seq<byte> {
    var i := FirstNewline(bytes);
    if i < |bytes| then bytes[i + 1..] else []
  }

  function Min(a: nat, b: nat): nat {
    if a <= b then a else b
  }

  ghost predicate NoNewline(bytes: seq<byte>) {
    forall i :: 0 <= i < |bytes| ==> bytes[i] != NEWLINE
  }

  /** A line: a newline at its end and nowhere else. */
  ghost predicate IsLine(line: seq<byte>) {
    line != [] && line[|line| - 1] == NEWLINE && NoNewline(line[..|line| - 1])
  }

  lemma LineEnds(line: seq<byte>, rest: seq<byte>, breaks: bool)
    requires IsLine(line)
    ensures NextLine(line + rest, breaks) == Line(FrameOf(line)) && AfterLine(line + rest) == rest
  {
    var all, last := line + rest, |line| - 1;
    var i := FirstNewline(all);
    assert all[last] == NEWLINE;
    assert forall k :: 0 <= k < last ==> all[k] == line[..last][k];
    assert i == last;
    assert all[..i + 1] == line && all[i + 1..] == rest;
  }

  lemma NoLineEnds(bytes: seq<byte>)
    requires NoNewline(bytes)
    ensures FirstNewline(bytes) == |bytes| && AfterLine(bytes) == []
  {
  }

  /** What is kept of a line of which `seen` has arrived. */
  function Kept(seen: seq<byte>): (prefix: seq<byte>)
    ensures |prefix| <= MAX_BROKER_LINE_BYTES + 1
  {
    seen[..Min(|seen|, MAX_BROKER_LINE_BYTES + 1)]
  }

  /** Where the line ends inside what is available: all of it when it does not. */
  method CountToNewline(available: seq<byte>) returns (count: nat)
    requires available != []
    ensures 0 < count <= |available| && NoNewline(available[..count - 1])
    ensures available[count - 1] == NEWLINE || count == |available|
  {
    var i := 0;
    while i < |available| && available[i] != NEWLINE
      invariant i <= |available| && NoNewline(available[..i])
    {
      i := i + 1;
    }
    count := if i < |available| then i + 1 else |available|;
  }

  /** The line being read: `seen` is all of it so far, `prefix` what is kept of it. */
  class PartialLine {
    var prefix: seq<byte>
    var oversized: bool
    ghost var seen: seq<byte>

    ghost predicate Valid()
      reads this
    {
      prefix == Kept(seen) && (oversized <==> |seen| > MAX_BROKER_LINE_BYTES)
    }

    constructor ()
      ensures Valid() && seen == []
    {
      prefix, oversized, seen := [], false, [];
    }

    method Add(piece: seq<byte>)
      requires Valid()
      modifies this
      ensures Valid() && seen == old(seen) + piece
      ensures |prefix| <= MAX_BROKER_LINE_BYTES + 1
    {
      if !oversized {
        var room := MAX_BROKER_LINE_BYTES + 1 - |prefix|;
        prefix := prefix + piece[..Min(|piece|, room)];
        oversized := |prefix| > MAX_BROKER_LINE_BYTES;
      }
      seen := seen + piece;
    }

    method Finish() returns (frame: Frame)
      requires Valid()
      ensures frame == FrameOf(seen)
    {
      assert |seen| <= MAX_BROKER_LINE_BYTES ==> seen[..|seen|] == seen;
      frame := if oversized then Oversized(prefix) else Request(prefix);
    }
  }

  /** Takes from the buffer up to the end of the line, or all of it. */
  method TakePiece(reader: Reader, line: PartialLine) returns (ended: bool)
    requires reader.Valid() && line.Valid() && reader.buffer != [] && NoNewline(line.seen)
    modifies reader`buffer, line
    ensures reader.Valid() && line.Valid()
    ensures line.seen + reader.Unread() == old(line.seen + reader.Unread())
    ensures |reader.Unread()| < old(|reader.Unread()|)
    ensures if ended then IsLine(line.seen) else NoNewline(line.seen)
  {
    var available := reader.buffer;
    var count := CountToNewline(available);
    Advance(line.seen, available, count);
    Reassociate(line.seen, available[..count], available[count..], Coming(reader.fills));
    ended := available[count - 1] == NEWLINE;
    line.Add(available[..count]);
    reader.Consume(count);
  }

  lemma Reassociate(seen: seq<byte>, piece: seq<byte>, left: seq<byte>, coming: seq<byte>)
    ensures seen + ((piece + left) + coming) == (seen + piece) + (left + coming)
  {
  }

  lemma Advance(seen: seq<byte>, available: seq<byte>, count: nat)
    requires NoNewline(seen) && 0 < count <= |available| && NoNewline(available[..count - 1])
    ensures available == available[..count] + available[count..]
    ensures if available[count - 1] == NEWLINE then IsLine(seen + available[..count])
            else NoNewline(seen + available[..count])
  {
    assert available[..count] == available[..count - 1] + [available[count - 1]];
    if available[count - 1] == NEWLINE {
      JoinEnds(seen, available[..count - 1]);
    } else {
      JoinHasNone(seen, available[..count]);
    }
  }

  lemma JoinHasNone(a: seq<byte>, b: seq<byte>)
    requires NoNewline(a) && NoNewline(b)
    ensures NoNewline(a + b)
  {
  }

  lemma JoinEnds(a: seq<byte>, b: seq<byte>)
    requires NoNewline(a) && NoNewline(b)
    ensures IsLine(a + (b + [NEWLINE]))
  {
    var line := a + (b + [NEWLINE]);
    JoinHasNone(a, b);
    assert line[..|line| - 1] == a + b;
  }

  /**
    `read_broker_line`: whatever chunks the stream arrives in, the result is that of the
    stream's bytes.
   */
  method ReadBrokerLine(reader: Reader) returns (r: LineRead)
    requires reader.Valid()
    modifies reader
    ensures reader.Valid() && Breaks(reader.fills) == old(Breaks(reader.fills))
    ensures r == NextLine(old(reader.Unread()), old(Breaks(reader.fills)))
    ensures reader.Unread() == AfterLine(old(reader.Unread()))
  {
    ghost var all, breaks := reader.Unread(), Breaks(reader.fills);
    var line := new PartialLine();
    while true
      invariant reader.Valid() && line.Valid() && Breaks(reader.fills) == breaks
      invariant line.seen + reader.Unread() == all
      invariant NoNewline(line.seen)
      decreases |reader.fills| + |reader.Unread()|
    {
      var filled := reader.FillBuf();
      if filled.InterruptedError? {
        continue;
      }
      if filled.OtherError? || filled.bytes == [] {
        assert all == line.seen;
        NoLineEnds(all);
        return if filled.OtherError? then ReadFailed else if line.prefix == [] then NoLine else Unterminated;
      }
      var ended := TakePiece(reader, line);
      if ended {
        LineEnds(line.seen, reader.Unread(), breaks);
        var frame := line.Finish();
        return Line(frame);
      }
    }
  }

  // ---- the whole stream ----

  /**
    What one call of `read_broker_line` makes of the bytes to come: a request is the line up
    to its newline when that has at most 65536 bytes, a longer line gives its first 65537,
    and without a newline the stream failed, was empty or ended too early.
   */
  lemma NextLineMeans(bytes: seq<byte>, breaks: bool)
    ensures var r, rest := NextLine(bytes, breaks), AfterLine(bytes);
      match r
      case Line(Request(line)) => bytes == line + rest && IsLine(line) && |line| <= 65536
      case Line(Oversized(prefix)) =>
        |prefix| == 65537 && exists line :: bytes == line + rest && IsLine(line) && prefix == line[..65537]
      case ReadFailed => NoNewline(bytes) && breaks
      case NoLine => bytes == [] && !breaks
      case Unterminated => NoNewline(bytes) && bytes != [] && !breaks
  {
    var i := FirstNewline(bytes);
    if i < |bytes| {
      var line := bytes[..i + 1];
      assert line[..|line| - 1] == bytes[..i];
      assert bytes == line + bytes[i + 1..] && IsLine(line);
    }
  }

  /** Every complete line of the stream, with its newline. */
  function LinesOf(bytes: seq<byte>): seq<seq<byte>>
    decreases |bytes|
  {
    var i := FirstNewline(bytes);
    if i < |bytes| then [bytes[..i + 1]] + LinesOf(bytes[i + 1..]) else []
  }

  function TailOf(bytes: seq<byte>): seq<byte>
    decreases |bytes|
  {
    var i := FirstNewline(bytes);
    if i < |bytes| then TailOf(bytes[i + 1..]) else bytes
  }

  /** `lines` and `tail` cut `bytes` after each newline. */
  ghost predicate Cuts(bytes: seq<byte>, lines: seq<seq<byte>>, tail: seq<byte>) {
    && bytes == Flatten(lines) + tail
    && (forall i :: 0 <= i < |lines| ==> IsLine(lines[i]))
    && NoNewline(tail)
  }

  /** Cutting at newlines has exactly one result, and it is the framer's. */
  lemma {:induction false} LinesAreTheCut(bytes: seq<byte>, lines: seq<seq<byte>>, tail: seq<byte>)
    ensures Cuts(bytes, lines, tail) <==> lines == LinesOf(bytes) && tail == TailOf(bytes)
    decreases |bytes|, |lines|
  {
    CutExists(bytes);
    if Cuts(bytes, lines, tail) {
      CutIsUnique(bytes, lines, tail);
    }
  }

  lemma {:induction false} CutExists(bytes: seq<byte>)
    ensures Cuts(bytes, LinesOf(bytes), TailOf(bytes))
    decreases |bytes|
  {
    var i := FirstNewline(bytes);
    if i < |bytes| {
      var line, rest := bytes[..i + 1], bytes[i + 1..];
      CutExists(rest);
      assert line[..|line| - 1] == bytes[..i];
      CutsMore(bytes, line, rest, LinesOf(rest), TailOf(rest));
    } else {
      assert bytes == Flatten([]) + bytes;
    }
  }

  lemma CutsMore(bytes: seq<byte>, line: seq<byte>, rest: seq<byte>, lines: seq<seq<byte>>, tail: seq<byte>)
    requires bytes == line + rest && IsLine(line) && Cuts(rest, lines, tail)
    ensures Cuts(bytes, [line] + lines, tail)
  {
    assert ([line] + lines)[1..] == lines;
    assert line + (Flatten(lines) + tail) == (line + Flatten(lines)) + tail;
  }

  lemma {:induction false} CutIsUnique(bytes: seq<byte>, lines: seq<seq<byte>>, tail: seq<byte>)
    requires Cuts(bytes, lines, tail)
    ensures lines == LinesOf(bytes) && tail == TailOf(bytes)
    decreases |lines|
  {
    if lines == [] {
      assert bytes == tail;
      NoLineEnds(bytes);
    } else {
      var rest := Flatten(lines[1..]) + tail;
      assert bytes == lines[0] + rest;
      LineEnds(lines[0], rest, false);
      assert bytes[..|lines[0]|] == lines[0] && bytes[|lines[0]|..] == rest;
      FirstOfLine(lines[0], rest);
      CutIsUnique(rest, lines[1..], tail);
      assert lines == [lines[0]] + lines[1..];
    }
  }

  lemma FirstOfLine(line: seq<byte>, rest: seq<byte>)
    requires IsLine(line)
    ensures FirstNewline(line + rest) == |line| - 1
  {
    var all, last := line + rest, |line| - 1;
    assert all[last] == NEWLINE;
    assert forall k :: 0 <= k < last ==> all[k] == line[..last][k];
  }
}
