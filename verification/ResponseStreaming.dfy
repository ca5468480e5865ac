/** The client's loop that turns a local response body into body frames
    (pkg/client/upgrade.go): a reused buffer in, one frame a read out. */
module ResponseStreaming {
  import opened Protocol
  import opened EndToEnd

  datatype ReadError = NoReadError | EndOfFile | ReadBroken

  /** One call of Read: what it puts in the buffer and the error it returns with it. */
  datatype ReadResult = ReadResult(data: seq<byte>, err: ReadError)

  /** The local response body: what its reads will give, and how many were made.
      Reads past the list fail. */
  class ResponseBody {
    const script: seq<ReadResult>
    var taken: nat

    constructor (script: seq<ReadResult>)
      ensures this.script == script && taken == 0
    {
      this.script := script;
      taken := 0;
    }

    ghost predicate Valid(size: nat)
      reads this
    {
      taken <= |script| && forall i | 0 <= i < |script| :: |script[i].data| <= size
    }

    method Read(buf: array<byte>) returns (n: nat, err: ReadError)
      requires Valid(buf.Length)
      modifies this`taken, buf
      ensures Valid(buf.Length) && n <= buf.Length
      ensures if old(taken) < |script| then
                taken == old(taken) + 1 && buf[..n] == script[old(taken)].data && err == script[old(taken)].err
              else taken == old(taken) && n == 0 && err == ReadBroken
    {
      if taken == |script| {
        return 0, ReadBroken;
      }
      var data := script[taken].data;
      n, err := |data|, script[taken].err;
      forall k | 0 <= k < n {
        buf[k] := data[k];
      }
      taken := taken + 1;
    }
  }

  /** The stream's end of the dispatcher: `accepts` sends succeed before one fails. */
  class StreamSender {
    var frames: seq<Message>
    var final: bool
    var accepts: nat

    constructor (frames: seq<Message>, accepts: nat)
      ensures this.frames == frames && this.accepts == accepts && !final
    {
      this.frames, this.accepts, this.final := frames, accepts, false;
    }

    method Send(frame: Message, isFinal: bool) returns (ok: bool)
      modifies this
      ensures ok <==> old(accepts) > 0
      ensures if ok then
                accepts == old(accepts) - 1 && frames == old(frames) + [frame] && final == (old(final) || isFinal)
              else accepts == old(accepts) && frames == old(frames) && final == old(final)
    {
      if accepts == 0 {
        return false;
      }
      accepts, frames, final := accepts - 1, frames + [frame], final || isFinal;
      return true;
    }
  }

  /** What the first reads gave. */
  function DataOf(script: seq<ReadResult>): seq<byte> {
    if script == [] then [] else DataOf(script[..|script| - 1]) + script[|script| - 1].data
  }

  lemma DataOfNext(script: seq<ReadResult>, i: nat)
    requires i < |script|
    ensures DataOf(script[..i + 1]) == DataOf(script[..i]) + script[i].data
  {
    assert script[..i + 1][..i] == script[..i];
  }

  datatype Outcome = Completed | SendFailed | ReadFailed

  /** All body frames carry at least one byte and at most a buffer's worth. */
  predicate Sized(frames: seq<Message>, size: nat) {
    forall i | 0 <= i < |frames| && frames[i].kind.ResponseBody? :: 0 < |frames[i].chunk| <= size
  }

  /** A response under way: started, not ended, and properly framed. */
  predicate UnderWay(frames: seq<Message>, id: string, size: nat) {
    Shaped(frames) && frames != [] && !Ended(frames) && Sized(frames, size) && OfRequest(frames, id)
  }

  /** All frames carry the request's id; the server drops one that does not. */
  predicate OfRequest(frames: seq<Message>, id: string) {
    forall i | 0 <= i < |frames| :: frames[i].id == id
  }

  lemma FrameAdded(frames: seq<Message>, frame: Message, id: string, size: nat)
    requires UnderWay(frames, id, size) && frame.id == id
    requires (frame.kind.ResponseBody? && 0 < |frame.chunk| <= size) || frame.kind.ResponseEnd?
    ensures var more := frames + [frame];
      && Shaped(more) && Sized(more, size) && OfRequest(more, id) && (Ended(more) <==> frame.kind.ResponseEnd?)
      && Bytes(more) == Bytes(frames) + if frame.kind.ResponseBody? then frame.chunk else []
  {
    ShapedNext(frames, frame);
    BytesAppend(frames, frame);
  }

  method SendChunk(id: string, chunk: seq<byte>, sender: StreamSender, ghost size: nat) returns (ok: bool)
    requires UnderWay(sender.frames, id, size) && 0 < |chunk| <= size
    modifies sender
    ensures UnderWay(sender.frames, id, size) && sender.final == old(sender.final)
    ensures old(sender.frames) <= sender.frames
    ensures Bytes(sender.frames) == Bytes(old(sender.frames)) + if ok then chunk else []
  {
    var frame := Message(ResponseBody, id, chunk);
    ghost var frames := sender.frames;
    ok := sender.Send(frame, false);
    if ok {
      FrameAdded(frames, frame, id, size);
    }
  }

  /** Everything read has been sent. */
  predicate CaughtUp(frames: seq<Message>, body: ResponseBody)
    reads body
    requires body.taken <= |body.script|
  {
    Bytes(frames) == DataOf(body.script[..body.taken])
  }

  /** One turn of the loop: a read into the buffer, and a frame if it gave bytes. */
  method ReadAndSend(id: string, body: ResponseBody, buf: array<byte>, sender: StreamSender)
    returns (n: nat, err: ReadError, ok: bool)
    requires body.Valid(buf.Length) && UnderWay(sender.frames, id, buf.Length) && CaughtUp(sender.frames, body)
    modifies body`taken, buf, sender
    ensures body.Valid(buf.Length) && UnderWay(sender.frames, id, buf.Length) && sender.final == old(sender.final)
    ensures body.taken == old(body.taken) + 1 || (err.ReadBroken? && body.taken == old(body.taken))
    ensures err.EndOfFile? ==> body.taken > 0 && body.script[body.taken - 1].err.EndOfFile?
    ensures if ok then CaughtUp(sender.frames, body) else Bytes(sender.frames) <= DataOf(body.script[..body.taken])
    ensures |Bytes(sender.frames)| == |Bytes(old(sender.frames))| + if ok then n else 0
    ensures old(sender.frames) <= sender.frames
  {
    ghost var at := body.taken;
    n, err := body.Read(buf);
    if at < |body.script| {
      DataOfNext(body.script, at);
    }
    ok := true;
    if n > 0 {
      ok := SendChunk(id, buf[..n], sender, buf.Length);
    }
  }

  method SendEnd(id: string, sender: StreamSender, ghost size: nat) returns (ok: bool)
    requires UnderWay(sender.frames, id, size) && !sender.final
    modifies sender
    ensures Shaped(sender.frames) && Sized(sender.frames, size) && OfRequest(sender.frames, id)
    ensures (ok <==> Ended(sender.frames)) && (ok <==> sender.final)
    ensures Bytes(sender.frames) == Bytes(old(sender.frames)) && old(sender.frames) <= sender.frames
  {
    var frame := Message(ResponseEnd, id, []);
    ghost var frames := sender.frames;
    ok := sender.Send(frame, true);
    if ok {
      FrameAdded(frames, frame, id, size);
    }
  }

  lemma StartedUnderWay(frames: seq<Message>, id: string, size: nat)
    requires Shaped(frames) && |frames| == 1 && frames[0].id == id
    ensures UnderWay(frames, id, size) && Bytes(frames) == []
  {
    assert frames[0].kind.ResponseStart?;
    BytesAppend([], frames[0]);
    assert frames == [] + [frames[0]];
  }

  /** How the loop may end. Whatever the buffer held when a frame was made, the
      frames carry what was read, in order. */
  predicate Ends(outcome: Outcome, frames: seq<Message>, id: string, final: bool, body: ResponseBody, size: nat)
    reads body
    requires body.taken <= |body.script|
  {
    var data := DataOf(body.script[..body.taken]);
    && Shaped(frames) && Sized(frames, size) && OfRequest(frames, id)
    && (outcome.Completed? <==> Ended(frames)) && (final <==> outcome.Completed?)
    && (if outcome.SendFailed? then Bytes(frames) <= data else Bytes(frames) == data)
    && (outcome.Completed? ==> body.taken > 0 && body.script[body.taken - 1].err.EndOfFile?)
  }

  /** The loop does what the client of EndToEnd does: between turns its frames fit a
      client that has sent all it read, and in the end one that has finished, or
      given up. */
  lemma LoopFitsClient(frames: seq<Message>, id: string, body: ResponseBody, size: nat, status: int, rest: seq<byte>)
    requires body.taken <= |body.script| && UnderWay(frames, id, size) && CaughtUp(frames, body)
    requires frames[0].kind == ResponseStart(status)
    ensures Fits(frames, Client(Between, DataOf(body.script[..body.taken]), [], false, status, rest), false, id)
  {
    assert Bytes(frames) + [] == Bytes(frames);
  }

  lemma EndFitsClient(
    outcome: Outcome, frames: seq<Message>, id: string, final: bool, body: ResponseBody, size: nat, status: int)
    requires body.taken <= |body.script| && Ends(outcome, frames, id, final, body, size)
    requires frames != [] && frames[0].kind == ResponseStart(status)
    ensures var phase := if outcome.Completed? then Finished else GaveUp;
      Fits(frames, Client(phase, DataOf(body.script[..body.taken]), [], outcome.Completed?, status, []), final, id)
  {
  }

  /** One turn of the loop, with what follows its read. */
  method Turn(id: string, body: ResponseBody, buf: array<byte>, sender: StreamSender)
    returns (n: nat, stop: bool, outcome: Outcome)
    requires body.Valid(buf.Length) && UnderWay(sender.frames, id, buf.Length) && CaughtUp(sender.frames, body)
    requires !sender.final
    modifies body`taken, buf, sender
    ensures body.Valid(buf.Length)
    ensures |Bytes(sender.frames)| == |Bytes(old(sender.frames))| + n && old(sender.frames) <= sender.frames
    ensures if stop then Ends(outcome, sender.frames, id, sender.final, body, buf.Length)
            else UnderWay(sender.frames, id, buf.Length) && CaughtUp(sender.frames, body) && !sender.final
                 && body.taken == old(body.taken) + 1
  {
    var readErr, ok;
    n, readErr, ok := ReadAndSend(id, body, buf, sender);
    if !ok {
      n, stop, outcome := 0, true, SendFailed;
    } else if readErr.EndOfFile? {
      ok := SendEnd(id, sender, buf.Length);
      stop, outcome := true, if ok then Completed else SendFailed;
    } else {
      stop, outcome := readErr.ReadBroken?, ReadFailed;
    }
  }

  /** streamResponseReader, after the start frame was sent: the end frame, sent as
      final, follows exactly when the body ended cleanly and every send succeeded,
      and then nothing read is missing. */
  method StreamResponseReader(id: string, body: ResponseBody, sender: StreamSender, size: nat)
    returns (outcome: Outcome, received: nat)
    requires body.Valid(size) && body.taken == 0
    requires Shaped(sender.frames) && |sender.frames| == 1 && sender.frames[0].id == id && !sender.final
    modifies body`taken, sender
    ensures body.Valid(size) && Ends(outcome, sender.frames, id, sender.final, body, size)
    ensures received == |Bytes(sender.frames)| && old(sender.frames) <= sender.frames
  {
    var buf := new byte[size];
    received := 0;
    StartedUnderWay(sender.frames, id, size);
    var stop := false;
    outcome := Completed;
    while !stop
      invariant body.Valid(size) && buf.Length == size && fresh(buf)
      invariant received == |Bytes(sender.frames)| && old(sender.frames) <= sender.frames
      invariant if stop then Ends(outcome, sender.frames, id, sender.final, body, size)
                else UnderWay(sender.frames, id, size) && !sender.final && CaughtUp(sender.frames, body)
      decreases !stop, |body.script| - body.taken
    {
      var n;
      n, stop, outcome := Turn(id, body, buf, sender);
      received := received + n;
    }
  }
}
