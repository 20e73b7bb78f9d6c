/**
  The serving loop of the permission broker (`serve_broker_connection`,
  src/permission_broker.rs).

  JSON decoding, the hook and the socket's writes are parameters: `decode` and
  `requestId` are functions of the bytes, `hook` may answer each call differently, and
  `writes(k)` says whether the k-th response can be written.
 */
module BrokerServing {
  import opened BrokerFraming
  import opened Bytes
  import opened Wrappers

  type u32 = n: nat | n <= 0xFFFF_FFFF witness 0

  datatype PermissionRequest = PermissionRequest(name: string, value: Option<string>)

  datatype BrokerRequest = BrokerRequest(id: u32, permission: PermissionRequest)

  datatype HookResult = Allowed | Denied | Panicked

  datatype Response = Response(id: u32, allow: bool)

  datatype Environment = Environment(
    decode: seq<byte> -> Option<BrokerRequest>,
    requestId: (seq<byte>, bool) -> Option<u32>,
    hook: (nat, PermissionRequest) -> HookResult,
    writes: nat -> bool)

  // ---- what one frame is worth ----

  /** The request a frame holds, when it fits the limit and decodes. */
  function Requested(env: Environment, frame: Frame): Option<BrokerRequest> {
    match frame
    case Oversized(_) => None
    case Request(line) => env.decode(line)
  }

  /** The id a response to the frame carries; none means the frame cannot be answered. */
  function IdOf(env: Environment, frame: Frame): Option<u32> {
    match frame
    case Oversized(prefix) => env.requestId(prefix, true)
    case Request(line) =>
      match env.decode(line) {
        case Some(request) => Some(request.id)
        case None => env.requestId(line, false)
      }
  }

  function HookCalls(env: Environment, frame: Frame): nat {
    if Requested(env, frame).Some? then 1 else 0
  }

  function Allows(env: Environment, frame: Frame, calls: nat): bool {
    match Requested(env, frame)
    case None => false
    case Some(request) => env.hook(calls, request.permission).Allowed?
  }

  /** The responses sent for `frames`, after `calls` hook calls and `written` responses. */
  function Transcript(env: Environment, frames: seq<Frame>, calls: nat, written: nat): seq<Response>
    decreases |frames|
  {
    if frames == [] || IdOf(env, frames[0]).None? || !env.writes(written) then []
    else
      [Response(IdOf(env, frames[0]).value, Allows(env, frames[0], calls))]
      + Transcript(env, frames[1..], calls + HookCalls(env, frames[0]), written + 1)
  }

  function FramesOf(lines: seq<seq<byte>>): (frames: seq<Frame>)
    ensures |frames| == |lines|
    ensures forall i :: 0 <= i < |lines| ==> frames[i] == FrameOf(lines[i])
  {
    if lines == [] then [] else [FrameOf(lines[0])] + FramesOf(lines[1..])
  }

  /** What is still to be sent when `bytes` are still to come. */
  function Rest(env: Environment, bytes: seq<byte>, calls: nat, written: nat): seq<Response> {
    Transcript(env, FramesOf(LinesOf(bytes)), calls, written)
  }

  /** Everything sent over one connection that delivers `bytes`. */
  function Conversation(env: Environment, bytes: seq<byte>): seq<Response> {
    Rest(env, bytes, 0, 0)
  }

  lemma RestUnfolds(env: Environment, bytes: seq<byte>, breaks: bool, calls: nat, written: nat)
    ensures !NextLine(bytes, breaks).Line? ==> Rest(env, bytes, calls, written) == []
    ensures NextLine(bytes, breaks).Line? ==>
      var frame := NextLine(bytes, breaks).frame;
      Rest(env, bytes, calls, written) ==
        if IdOf(env, frame).None? || !env.writes(written) then []
        else [Response(IdOf(env, frame).value, Allows(env, frame, calls))]
             + Rest(env, AfterLine(bytes), calls + HookCalls(env, frame), written + 1)
    ensures NextLine(bytes, breaks).Line? ==> |AfterLine(bytes)| < |bytes|
  {
    if NextLine(bytes, breaks).Line? {
      FirstFrame(bytes);
    }
  }

  lemma FirstFrame(bytes: seq<byte>)
    requires FirstNewline(bytes) < |bytes|
    ensures var frames := FramesOf(LinesOf(bytes));
      && frames != [] && frames[0] == FrameOf(bytes[..FirstNewline(bytes) + 1])
      && frames[1..] == FramesOf(LinesOf(AfterLine(bytes)))
  {
    assert LinesOf(bytes)[1..] == LinesOf(AfterLine(bytes));
  }

  // ---- the loop ----

  /** One frame: the response, if there is one to send. */
  method Answer(env: Environment, frame: Frame, calls: nat) returns (response: Option<Response>, asked: nat)
    ensures response.None? <==> IdOf(env, frame).None?
    ensures response.Some? ==> response.value == Response(IdOf(env, frame).value, Allows(env, frame, calls))
    ensures response.Some? ==> asked == calls + HookCalls(env, frame)
  {
    var id: u32, request := 0, None;
    asked := calls;
    match frame {
      case Oversized(prefix) =>
        var found := env.requestId(prefix, true);
        if found.None? {
          return None, asked;
        }
        id := found.value;
      case Request(line) =>
        var decoded := env.decode(line);
        if decoded.Some? {
          id, request := decoded.value.id, Some(decoded.value.permission);
        } else {
          var found := env.requestId(line, false);
          if found.None? {
            return None, asked;
          }
          id := found.value;
        }
    }
    var allow := false;
    if request.Some? {
      allow := env.hook(calls, request.value) == Allowed;
      asked := calls + 1;
    }
    response := Some(Response(id, allow));
  }

  /** What one turn does with what it read. */
  ghost predicate Answered(
      env: Environment, line: LineRead, calls: nat, written: nat, sent: Option<Response>, asked: nat)
  {
    && (sent.Some? <==> line.Line? && IdOf(env, line.frame).Some? && env.writes(written))
    && (sent.Some? ==>
          && sent.value == Response(IdOf(env, line.frame).value, Allows(env, line.frame, calls))
          && asked == calls + HookCalls(env, line.frame))
  }

  lemma TurnUnfolds(env: Environment, bytes: seq<byte>, breaks: bool, calls: nat, written: nat,
                    sent: Option<Response>, asked: nat)
    requires Answered(env, NextLine(bytes, breaks), calls, written, sent, asked)
    ensures sent.None? ==> Rest(env, bytes, calls, written) == []
    ensures sent.Some? ==>
              && Rest(env, bytes, calls, written) == [sent.value] + Rest(env, AfterLine(bytes), asked, written + 1)
              && |AfterLine(bytes)| < |bytes|
  {
    RestUnfolds(env, bytes, breaks, calls, written);
  }

  /** One turn of the loop: read a line, answer it, write the response. */
  method Turn(reader: Reader, env: Environment, calls: nat, written: nat)
    returns (sent: Option<Response>, asked: nat)
    requires reader.Valid()
    modifies reader
    ensures reader.Valid() && Breaks(reader.fills) == old(Breaks(reader.fills))
    ensures reader.Unread() == AfterLine(old(reader.Unread()))
    ensures Answered(env, NextLine(old(reader.Unread()), old(Breaks(reader.fills))), calls, written, sent, asked)
  {
    var read := ReadBrokerLine(reader);
    if !read.Line? {
      return None, calls;
    }
    sent, asked := Answer(env, read.frame, calls);
    if !env.writes(written) {
      sent := None;
    }
  }

  method Serve(reader: Reader, env: Environment) returns (sent: seq<Response>)
    requires reader.Valid()
    modifies reader
    ensures sent == Conversation(env, old(reader.Unread()))
  {
    ghost var all := Conversation(env, reader.Unread());
    var calls := 0;
    sent := [];
    while true
      invariant reader.Valid()
      invariant all == sent + Rest(env, reader.Unread(), calls, |sent|)
      decreases |reader.Unread()|
    {
      ghost var bytes, breaks := reader.Unread(), Breaks(reader.fills);
      var response, asked := Turn(reader, env, calls, |sent|);
      TurnUnfolds(env, bytes, breaks, calls, |sent|, response, asked);
      if response.None? {
        return;
      }
      SentFirst(sent, response.value, Rest(env, reader.Unread(), asked, |sent| + 1));
      sent := sent + [response.value];
      calls := asked;
    }
  }

  lemma SentFirst(sent: seq<Response>, next: Response, rest: seq<Response>)
    ensures sent + ([next] + rest) == (sent + [next]) + rest
  {
  }

  // ---- what a peer can rely on ----

  /** Hook calls made for the first `i` frames. */
  function CallsBefore(env: Environment, frames: seq<Frame>, i: nat): nat
    requires i <= |frames|
  {
    if i == 0 then 0 else HookCalls(env, frames[0]) + CallsBefore(env, frames[1..], i - 1)
  }

  /** The i-th response carries the i-th frame's id and the hook's verdict on it. */
  ghost predicate Answers(
      env: Environment, frames: seq<Frame>, calls: nat, written: nat, t: seq<Response>, i: nat)
    requires i < |t| <= |frames|
  {
    && IdOf(env, frames[i]) == Some(t[i].id)
    && env.writes(written + i)
    && t[i].allow == Allows(env, frames[i], calls + CallsBefore(env, frames, i))
  }

  /**
    Responses go out in frame order, each with its own frame's id, and say allow exactly
    when that frame is a request within the limit, decoded, for which the hook returned
    true. Nothing is sent past the first frame that has no id or cannot be written.
   */
  lemma {:induction false} TranscriptAnswers(env: Environment, frames: seq<Frame>, calls: nat, written: nat)
    ensures var t := Transcript(env, frames, calls, written);
      && |t| <= |frames|
      && (forall i :: 0 <= i < |t| ==> Answers(env, frames, calls, written, t, i))
      && (|t| < |frames| ==> IdOf(env, frames[|t|]).None? || !env.writes(written + |t|))
    decreases |frames|
  {
    var t := Transcript(env, frames, calls, written);
    if t != [] {
      var calls' := calls + HookCalls(env, frames[0]);
      var t' := Transcript(env, frames[1..], calls', written + 1);
      TranscriptAnswers(env, frames[1..], calls', written + 1);
      assert t[1..] == t';
      forall i | 0 <= i < |t|
        ensures Answers(env, frames, calls, written, t, i)
      {
        if i > 0 {
          assert Answers(env, frames[1..], calls', written + 1, t', i - 1);
        }
      }
    }
  }

  /** An allow is the answer of the hook call made for that very request; an oversized line never gets one. */
  lemma AllowNeedsTheHook(env: Environment, bytes: seq<byte>, i: nat)
    requires i < |Conversation(env, bytes)| && Conversation(env, bytes)[i].allow
    ensures i < |LinesOf(bytes)| && |LinesOf(bytes)[i]| <= MAX_BROKER_LINE_BYTES
    ensures var request := env.decode(LinesOf(bytes)[i]);
      && request.Some? && request.value.id == Conversation(env, bytes)[i].id
      && env.hook(CallsBefore(env, FramesOf(LinesOf(bytes)), i), request.value.permission).Allowed?
  {
    var frames := FramesOf(LinesOf(bytes));
    TranscriptAnswers(env, frames, 0, 0);
    assert frames[i] == FrameOf(LinesOf(bytes)[i]);
    assert Answers(env, frames, 0, 0, Conversation(env, bytes), i);
  }

  /** The id found in a line: in its first 65537 bytes, in the request it decodes to, or by itself. */
  function IdIn(env: Environment, line: seq<byte>): Option<u32> {
    if |line| > 65536 then env.requestId(line[..65537], true)
    else if env.decode(line).Some? then Some(env.decode(line).value.id)
    else env.requestId(line, false)
  }

  /** The verdict on a line after `calls` hook calls. */
  predicate AllowedIn(env: Environment, line: seq<byte>, calls: nat) {
    |line| <= 65536 && env.decode(line).Some? && env.hook(calls, env.decode(line).value.permission) == Allowed
  }

  lemma FrameIsLine(env: Environment, line: seq<byte>, calls: nat)
    ensures IdOf(env, FrameOf(line)) == IdIn(env, line)
    ensures Allows(env, FrameOf(line), calls) == AllowedIn(env, line, calls)
  {
  }

  /**
    The i-th response, from the i-th line alone: an oversized line is denied under the id its
    prefix gives, a line that decodes gets its own id and the hook's verdict, any other is
    denied under the id it gives.
   */
  lemma ResponseOfLine(env: Environment, bytes: seq<byte>, i: nat)
    requires i < |Conversation(env, bytes)|
    ensures i < |LinesOf(bytes)|
    ensures Some(Conversation(env, bytes)[i].id) == IdIn(env, LinesOf(bytes)[i])
    ensures Conversation(env, bytes)[i].allow <==>
              AllowedIn(env, LinesOf(bytes)[i], CallsBefore(env, FramesOf(LinesOf(bytes)), i))
  {
    var lines := LinesOf(bytes);
    var frames := FramesOf(lines);
    TranscriptAnswers(env, frames, 0, 0);
    assert Answers(env, frames, 0, 0, Conversation(env, bytes), i);
    FrameIsLine(env, lines[i], CallsBefore(env, frames, i));
  }

  /** The conversation ends with the lines, at a line that gives no id, or at a response that cannot be written. */
  lemma ConversationEnds(env: Environment, bytes: seq<byte>)
    ensures var n, lines := |Conversation(env, bytes)|, LinesOf(bytes);
      n <= |lines| && (n < |lines| ==> !env.writes(n) || IdIn(env, lines[n]).None?)
  {
    var n, lines := |Conversation(env, bytes)|, LinesOf(bytes);
    TranscriptAnswers(env, FramesOf(lines), 0, 0);
    if n < |lines| {
      FrameIsLine(env, lines[n], 0);
    }
  }

  /** The lines among the first `i` that hold a request. */
  function RequestsAmong(env: Environment, lines: seq<seq<byte>>, i: nat): set<nat>
    requires i <= |lines|
  {
    if i == 0 then {}
    else RequestsAmong(env, lines, i - 1) + (if IsRequest(env, lines[i - 1]) then {i - 1} else {})
  }

  lemma {:induction false} RequestsAre(env: Environment, lines: seq<seq<byte>>, i: nat)
    requires i <= |lines|
    ensures forall k: nat :: k in RequestsAmong(env, lines, i) <==> k < i && IsRequest(env, lines[k])
  {
    if i > 0 {
      RequestsAre(env, lines, i - 1);
    }
  }

  predicate IsRequest(env: Environment, line: seq<byte>) {
    |line| <= 65536 && env.decode(line).Some?
  }

  /** The hook is called once for every line within the limit that decodes, and for nothing else. */
  lemma CallsAreForRequests(env: Environment, lines: seq<seq<byte>>, i: nat)
    requires i <= |lines|
    ensures CallsBefore(env, FramesOf(lines), i) == |RequestsAmong(env, lines, i)|
    ensures forall k: nat :: k in RequestsAmong(env, lines, i) <==> k < i && IsRequest(env, lines[k])
  {
    RequestsAre(env, lines, i);
    CallsCount(env, FramesOf(lines), lines, i);
  }

  lemma {:induction false} CallsCount(env: Environment, frames: seq<Frame>, lines: seq<seq<byte>>, i: nat)
    requires i <= |lines| == |frames| && forall k :: 0 <= k < i ==> frames[k] == FrameOf(lines[k])
    ensures CallsBefore(env, frames, i) == |RequestsAmong(env, lines, i)|
    decreases i
  {
    if i > 0 {
      CallsCount(env, frames, lines, i - 1);
      CountGrows(env, frames, lines, i - 1);
    }
  }

  lemma CountGrows(env: Environment, frames: seq<Frame>, lines: seq<seq<byte>>, i: nat)
    requires i < |lines| == |frames| && frames[i] == FrameOf(lines[i])
    requires CallsBefore(env, frames, i) == |RequestsAmong(env, lines, i)|
    ensures CallsBefore(env, frames, i + 1) == |RequestsAmong(env, lines, i + 1)|
  {
    CallsGrow(env, frames, i);
    RequestsGrow(env, lines, i);
  }

  lemma RequestsGrow(env: Environment, lines: seq<seq<byte>>, i: nat)
    requires i < |lines|
    ensures |RequestsAmong(env, lines, i + 1)| == |RequestsAmong(env, lines, i)| + HookCalls(env, FrameOf(lines[i]))
  {
    RequestsAre(env, lines, i);
    assert i !in RequestsAmong(env, lines, i);
  }

  lemma {:induction false} CallsGrow(env: Environment, frames: seq<Frame>, i: nat)
    requires i < |frames|
    ensures CallsBefore(env, frames, i + 1) == CallsBefore(env, frames, i) + HookCalls(env, frames[i])
    decreases i
  {
    if i > 0 {
      CallsGrow(env, frames[1..], i - 1);
    }
  }

  /** The chunks read before the stream ends or breaks, interruptions left out. */
  function Chunks(fills: seq<Fill>): seq<seq<byte>> {
    if fills == [] || fills[0].Broken? then []
    else (if fills[0].Chunk? then [fills[0].bytes] else []) + Chunks(fills[1..])
  }

  /** How the stream is split into reads never matters, whether it ends or breaks. */
  lemma SplitsDoNotMatter(env: Environment, a: seq<Fill>, b: seq<Fill>)
    requires Flatten(Chunks(a)) == Flatten(Chunks(b))
    ensures Conversation(env, Coming(a)) == Conversation(env, Coming(b))
  {
    ComingIsDelivered(a);
    ComingIsDelivered(b);
  }

  lemma {:induction false} ComingIsDelivered(fills: seq<Fill>)
    ensures Coming(fills) == Flatten(Chunks(fills))
  {
    if fills != [] && !fills[0].Broken? {
      ComingIsDelivered(fills[1..]);
      if fills[0].Chunk? {
        assert Chunks(fills)[1..] == Chunks(fills[1..]);
      } else {
        assert Chunks(fills) == Chunks(fills[1..]);
      }
    }
  }
}
