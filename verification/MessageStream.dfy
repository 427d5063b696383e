/** The MessageStream pump (src/transport/stream.rs): it reassembles the frames of one byte
    stream, and writes the frames handed to it after the subscription frame. */
module MessageStream {
  import opened Bytes
  import opened Grpc

  // ── Reassembly ──────────────────────────────────────────────────────────────

  /** Bytes of the first frame according to its header; the flag is not looked at. */
  function FrameLength(buf: seq<byte>): nat
    requires |buf| >= HEADER
  {
    HEADER + GetU32(buf, 1)
  }

  predicate HoldsFrame(buf: seq<byte>) {
    |buf| >= HEADER && |buf| >= FrameLength(buf)
  }

  predicate IsFrame(f: Frame) {
    |f| >= HEADER && |f| == FrameLength(f)
  }

  /** What a byte string means as a stream of frames: `frames` followed by an incomplete `rest`. */
  ghost predicate Framing(stream: seq<byte>, frames: seq<Frame>, rest: seq<byte>) {
    && Flatten(frames) + rest == stream
    && (forall i :: 0 <= i < |frames| ==> IsFrame(frames[i]))
    && !HoldsFrame(rest)
  }

  /** Splitting the whole stream at once. */
  function Split(buf: seq<byte>): (r: (seq<Frame>, seq<byte>)) {
    if !HoldsFrame(buf) then ([], buf)
    else
      var len := FrameLength(buf);
      var r := Split(buf[len..]);
      ([buf[..len]] + r.0, r.1)
  }

  lemma {:induction false} SplitFrames(buf: seq<byte>)
    ensures Framing(buf, Split(buf).0, Split(buf).1)
  {
    if HoldsFrame(buf) {
      var len := FrameLength(buf);
      SplitFrames(buf[len..]);
      assert GetU32(buf[..len], 1) == GetU32(buf, 1);
      var r := Split(buf[len..]);
      assert Split(buf).0[1..] == r.0;
      assert buf == buf[..len] + (Flatten(r.0) + r.1);
    }
  }

  /** A stream has only one framing, so `Framing` says everything about the pump's output. */
  lemma {:induction false} FramingUnique(stream: seq<byte>, a: seq<Frame>, ra: seq<byte>, b: seq<Frame>, rb: seq<byte>)
    requires Framing(stream, a, ra) && Framing(stream, b, rb)
    ensures a == b && ra == rb
  {
    if a == [] || b == [] {
      if a != [] { FirstFrame(stream, a, ra); }
      if b != [] { FirstFrame(stream, b, rb); }
      assert a == [] ==> stream == ra;
      assert b == [] ==> stream == rb;
    } else {
      FirstFrame(stream, a, ra);
      FirstFrame(stream, b, rb);
      var len := FrameLength(stream);
      FramingUnique(stream[len..], a[1..], ra, b[1..], rb);
      assert a == [a[0]] + a[1..] && b == [b[0]] + b[1..];
    }
  }

  lemma FirstFrame(stream: seq<byte>, frames: seq<Frame>, rest: seq<byte>)
    requires Framing(stream, frames, rest) && frames != []
    ensures HoldsFrame(stream)
    ensures frames[0] == stream[..FrameLength(stream)]
    ensures Framing(stream[FrameLength(stream)..], frames[1..], rest)
  {
    var f := frames[0];
    assert stream == f + (Flatten(frames[1..]) + rest);
    assert GetU32(stream, 1) == GetU32(f, 1);
    assert stream[|f|..] == Flatten(frames[1..]) + rest;
  }

  /** The receiving half of the pump. */
  datatype Reassembly = Reassembly(buf: seq<byte>, delivered: seq<Frame>)

  function Feed(r: Reassembly, chunk: seq<byte>): Reassembly {
    var s := Split(r.buf + chunk);
    Reassembly(s.1, r.delivered + s.0)
  }

  function FeedAll(chunks: seq<seq<byte>>): Reassembly {
    if chunks == [] then Reassembly([], [])
    else Feed(FeedAll(chunks[..|chunks| - 1]), chunks[|chunks| - 1])
  }

  lemma FeedKeepsFraming(r: Reassembly, stream: seq<byte>, chunk: seq<byte>)
    requires Framing(stream, r.delivered, r.buf)
    ensures Framing(stream + chunk, Feed(r, chunk).delivered, Feed(r, chunk).buf)
  {
    SplitFrames(r.buf + chunk);
    var (frames, rest) := Split(r.buf + chunk);
    FlattenAppend(r.delivered, frames);
    Regroup(Flatten(r.delivered), Flatten(frames), rest, r.buf, chunk);
  }

  lemma Regroup(done: seq<byte>, frames: seq<byte>, rest: seq<byte>, buf: seq<byte>, chunk: seq<byte>)
    requires frames + rest == buf + chunk
    ensures (done + frames) + rest == (done + buf) + chunk
  {
    assert (done + frames) + rest == done + (frames + rest);
    assert (done + buf) + chunk == done + (buf + chunk);
  }

  lemma {:induction false} FeedAllFrames(chunks: seq<seq<byte>>)
    ensures Framing(Flatten(chunks), FeedAll(chunks).delivered, FeedAll(chunks).buf)
  {
    if chunks != [] {
      var init, last := chunks[..|chunks| - 1], chunks[|chunks| - 1];
      FeedAllFrames(init);
      FeedKeepsFraming(FeedAll(init), Flatten(init), last);
      assert chunks == init + [last];
      FlattenAppend(init, [last]);
      assert Flatten([last]) == last;
    }
  }

  /** Chunk independence: however the stream is cut, the pump delivers its framing. */
  lemma {:induction false} ChunksDoNotMatter(chunks: seq<seq<byte>>)
    ensures Framing(Flatten(chunks), FeedAll(chunks).delivered, FeedAll(chunks).buf)
    ensures (FeedAll(chunks).delivered, FeedAll(chunks).buf) == Split(Flatten(chunks))
  {
    var stream := Flatten(chunks);
    FeedAllFrames(chunks);
    SplitFrames(stream);
    FramingUnique(stream, FeedAll(chunks).delivered, FeedAll(chunks).buf, Split(stream).0, Split(stream).1);
  }

  datatype Raw = Raw(flag: byte, body: seq<byte>)

  function RawFrames(raws: seq<Raw>): (fs: seq<Frame>)
    ensures |fs| == |raws|
    ensures forall i :: 0 <= i < |raws| ==> fs[i] == RawFrame(raws[i].flag, raws[i].body)
  {
    if raws == [] then []
    else [RawFrame(raws[0].flag, raws[0].body)] + RawFrames(raws[1..])
  }

  lemma RawFrameIsFrame(raw: Raw)
    requires |raw.body| < U32_LIMIT
    ensures IsFrame(RawFrame(raw.flag, raw.body))
  {
    assert RawFrame(raw.flag, raw.body) + [] == RawFrame(raw.flag, raw.body);
    RawFrameHeader(raw.flag, raw.body, []);
  }

  lemma RawFrameDecodes(raw: Raw)
    requires |raw.body| < U32_LIMIT
    ensures Decode(RawFrame(raw.flag, raw.body)) == if raw.flag == 0 then Ok(raw.body, []) else Err(Compressed)
  {
    assert RawFrame(raw.flag, raw.body) + [] == RawFrame(raw.flag, raw.body);
    if raw.flag == 0 {
      DecodeEncoded(raw.body, []);
    } else {
      CompressedRefused(raw.flag, raw.body, []);
    }
  }

  /** End to end: frames with any flags, cut anywhere, come out one by one and unshifted; each
      unflagged one decodes to its body with nothing left over, each flagged one is refused. */
  lemma {:induction false} FramesArriveIntact(raws: seq<Raw>, chunks: seq<seq<byte>>)
    requires forall i :: 0 <= i < |raws| ==> |raws[i].body| < U32_LIMIT
    requires Flatten(chunks) == Flatten(RawFrames(raws))
    ensures FeedAll(chunks) == Reassembly([], RawFrames(raws))
    ensures forall i :: 0 <= i < |raws| ==>
              Decode(FeedAll(chunks).delivered[i])
              == if raws[i].flag == 0 then Ok(raws[i].body, []) else Err(Compressed)
  {
    var frames := RawFrames(raws);
    forall i | 0 <= i < |raws|
      ensures IsFrame(frames[i])
      ensures Decode(frames[i]) == if raws[i].flag == 0 then Ok(raws[i].body, []) else Err(Compressed)
    {
      RawFrameIsFrame(raws[i]);
      RawFrameDecodes(raws[i]);
    }
    ChunksDoNotMatter(chunks);
    FramingUnique(Flatten(chunks), frames, [], FeedAll(chunks).delivered, FeedAll(chunks).buf);
  }

  /** A list of messages as it is sent: one unflagged frame each. */
  function Sent(messages: seq<seq<byte>>): (raws: seq<Raw>)
    ensures |raws| == |messages| && forall i :: 0 <= i < |messages| ==> raws[i] == Raw(0, messages[i])
  {
    seq(|messages|, i requires 0 <= i < |messages| => Raw(0, messages[i]))
  }

  /** The law the client relies on: a list of messages survives encoding, any chunking,
      reassembly and decoding, in order and complete. */
  lemma MessagesRoundTrip(messages: seq<seq<byte>>, chunks: seq<seq<byte>>)
    requires forall i :: 0 <= i < |messages| ==> |messages[i]| < U32_LIMIT
    requires Flatten(chunks) == Flatten(RawFrames(Sent(messages)))
    ensures FeedAll(chunks).buf == [] && |FeedAll(chunks).delivered| == |messages|
    ensures forall i :: 0 <= i < |messages| ==> Decode(FeedAll(chunks).delivered[i]) == Ok(messages[i], [])
  {
    FramesArriveIntact(Sent(messages), chunks);
    assert forall i :: 0 <= i < |messages| ==> Sent(messages)[i].flag == 0;
  }

  // ── Sending ─────────────────────────────────────────────────────────────────

  /** Depth of the outgoing channel. */
  const OUTGOING_DEPTH: nat := 256

  /** One stream as seen from outside: `enqueued` is the history of accepted frames, `wire` what
      was written to the server. */
  datatype Outgoing = Outgoing(enqueued: seq<Frame>, queue: seq<Frame>, wire: seq<Frame>, running: bool)

  datatype StreamOp =
    | Enqueue(frame: Frame)                // send_frame, by the engine
    | WriteOne(accepted: bool)             // one turn of the drain loop; send_data may fail
    | Stop                                 // handle dropped, server closed, receive error, abort

  /** Opening a stream writes the subscription before the pump exists. */
  function Opened(subscribe: Frame): Outgoing {
    Outgoing([], [], [subscribe], true)
  }

  /** A full channel makes `send_frame` wait; the drain loop acts only on a live, nonempty queue. */
  predicate Enabled(s: Outgoing, op: StreamOp) {
    match op
    case Enqueue(_) => s.running ==> |s.queue| < OUTGOING_DEPTH
    case WriteOne(_) => s.running && s.queue != []
    case Stop => true
  }

  /** Whether `send_frame` answers Ok. */
  predicate Accepts(s: Outgoing) {
    s.running
  }

  function StreamStep(s: Outgoing, op: StreamOp): Outgoing {
    if !Enabled(s, op) then s
    else
      match op
      case Enqueue(f) =>
        if Accepts(s) then s.(enqueued := s.enqueued + [f], queue := s.queue + [f]) else s
      case WriteOne(accepted) =>
        if accepted then s.(queue := s.queue[1..], wire := s.wire + [s.queue[0]])
        else s.(queue := s.queue[1..], running := false)
      case Stop => s.(running := false)
  }

  /** The drain loop with `accepts` successful writes ahead of it. */
  function WriteAll(s: Outgoing, accepts: nat): Outgoing
    decreases |s.queue|
  {
    if !s.running || s.queue == [] then s
    else if accepts == 0 then StreamStep(s, WriteOne(false))
    else WriteAll(StreamStep(s, WriteOne(true)), accepts - 1)
  }

  lemma {:induction false} WriteAllMeaning(s: Outgoing, accepts: nat)
    requires s.running
    ensures var q, r := s.queue, WriteAll(s, accepts);
            r == if |q| <= accepts then s.(queue := [], wire := s.wire + q)
                 else s.(queue := q[accepts + 1..], wire := s.wire + q[..accepts], running := false)
    decreases |s.queue|
  {
    if s.queue != [] && accepts > 0 {
      WriteAllMeaning(StreamStep(s, WriteOne(true)), accepts - 1);
      assert s.wire + [s.queue[0]] + s.queue[1..] == s.wire + s.queue;
      if accepts < |s.queue| {
        assert s.wire + [s.queue[0]] + s.queue[1..][..accepts - 1] == s.wire + s.queue[..accepts];
      }
    } else {
      assert s.wire + [] == s.wire;
    }
  }

  function StreamRun(subscribe: Frame, ops: seq<StreamOp>): Outgoing {
    if ops == [] then Opened(subscribe)
    else StreamStep(StreamRun(subscribe, ops[..|ops| - 1]), ops[|ops| - 1])
  }

  /** On every run of one stream the server sees the subscription first and then a first-in
      first-out prefix of the accepted frames; while the pump runs, the rest is still queued. */
  lemma {:induction false} WireIsFifoPrefix(subscribe: Frame, ops: seq<StreamOp>)
    ensures var s := StreamRun(subscribe, ops);
            && s.wire != [] && s.wire[0] == subscribe
            && s.wire[1..] <= s.enqueued
            && (s.running ==> s.wire[1..] + s.queue == s.enqueued)
            && |s.queue| <= OUTGOING_DEPTH
  {
    if ops != [] {
      var s := StreamRun(subscribe, ops);
      var before := StreamRun(subscribe, ops[..|ops| - 1]);
      WireIsFifoPrefix(subscribe, ops[..|ops| - 1]);
      match ops[|ops| - 1]
      case Enqueue(f) =>
        assert s.running ==> s.wire[1..] + s.queue == s.enqueued;
      case WriteOne(accepted) =>
        if Enabled(before, WriteOne(accepted)) && accepted {
          assert before.queue == [before.queue[0]] + before.queue[1..];
          assert s.wire[1..] == before.wire[1..] + [before.queue[0]];
          assert s.wire[1..] + s.queue == before.wire[1..] + before.queue;
        }
      case Stop =>
    }
  }

  /** The frames offered to a pump that runs and has room, in order. */
  function Taken(subscribe: Frame, ops: seq<StreamOp>): seq<Frame> {
    if ops == [] then []
    else
      var n := |ops| - 1;
      var s := StreamRun(subscribe, ops[..n]);
      Taken(subscribe, ops[..n]) + if ops[n].Enqueue? && s.running && |s.queue| < 256 then [ops[n].frame] else []
  }

  /** The successful writes of a pump that runs and has something to write. */
  function Written(subscribe: Frame, ops: seq<StreamOp>): nat {
    if ops == [] then 0
    else
      var n := |ops| - 1;
      var s := StreamRun(subscribe, ops[..n]);
      Written(subscribe, ops[..n]) + if ops[n] == WriteOne(true) && s.running && s.queue != [] then 1 else 0
  }

  /** Nothing stopped the pump, and no write failed. */
  predicate Alive(subscribe: Frame, ops: seq<StreamOp>) {
    ops != [] ==>
      var n := |ops| - 1;
      && Alive(subscribe, ops[..n]) && !ops[n].Stop?
      && (ops[n] == WriteOne(false) ==> StreamRun(subscribe, ops[..n]).queue == [])
  }

  /** On every run a pump takes each frame that it is offered while it runs and has room, and nothing else;
      it runs until it is stopped or a write fails; and each successful write puts the next frame on
      the wire. */
  lemma {:induction false} TakenExactly(subscribe: Frame, ops: seq<StreamOp>)
    ensures var s := StreamRun(subscribe, ops);
            && s.enqueued == Taken(subscribe, ops) && s.running == Alive(subscribe, ops)
            && |s.wire| == 1 + Written(subscribe, ops)
  {
    if ops != [] {
      TakenExactly(subscribe, ops[..|ops| - 1]);
    }
  }

  // ── The pump object ─────────────────────────────────────────────────────────

  /** What a poll of the incoming side finds: a chunk, nothing in time, or the end of the stream. */
  datatype Poll = Data(chunk: seq<byte>) | Quiet | Ended

  class Pump {
    var recvBuf: seq<byte>
    var delivered: seq<Frame>
    var queue: seq<Frame>
    var wire: seq<Frame>
    var running: bool
    var handleDropped: bool
    ghost var enqueued: seq<Frame>

    ghost function Incoming(): Reassembly
      reads this
    {
      Reassembly(recvBuf, delivered)
    }

    ghost function Out(): Outgoing
      reads this
    {
      Outgoing(enqueued, queue, wire, running)
    }

    constructor (subscribe: Frame)
      ensures Out() == Opened(subscribe) && Incoming() == Reassembly([], []) && !handleDropped
    {
      recvBuf, delivered := [], [];
      queue, wire, enqueued := [], [subscribe], [];
      running, handleDropped := true, false;
    }

    /** `BiDiStreamHandle::send_frame`. */
    method SendFrame(frame: Frame) returns (ok: bool)
      requires Enabled(Out(), Enqueue(frame))
      modifies this`queue, this`enqueued
      ensures ok == Accepts(old(Out()))
      ensures Out() == StreamStep(old(Out()), Enqueue(frame))
    {
      ok := running;
      if running {
        queue := queue + [frame];
        enqueued := enqueued + [frame];
      }
    }

    /** Phase 1 of the pump: drain the queue until it is empty or a write fails; the transport
        takes `accepts` more frames before it fails. A dropped handle is noticed on the empty
        queue only. */
    method DrainOutgoing(accepts: nat)
      requires running
      modifies this`queue, this`wire, this`running
      ensures var drained := WriteAll(old(Out()), accepts);
              Out() == if handleDropped then StreamStep(drained, Stop) else drained
    {
      var left: nat := accepts;
      while queue != []
        invariant running && WriteAll(Out(), left) == WriteAll(old(Out()), accepts)
        invariant left <= accepts
        decreases |queue|
      {
        var frame := queue[0];
        queue := queue[1..];
        if left == 0 {
          running := false;
          return;
        }
        wire := wire + [frame];
        left := left - 1;
      }
      if handleDropped {
        running := false;
      }
    }

    /** Phase 2 of the pump on data: append the chunk, then hand out every complete frame. */
    method Receive(chunk: seq<byte>)
      modifies this`recvBuf, this`delivered
      ensures Incoming() == Feed(old(Incoming()), chunk)
    {
      recvBuf := recvBuf + chunk;
      ghost var all := Split(recvBuf);
      while HoldsFrame(recvBuf)
        invariant old(delivered) + all.0 == delivered + Split(recvBuf).0
        invariant all.1 == Split(recvBuf).1
        decreases |recvBuf|
      {
        var len := FrameLength(recvBuf);
        var frame := recvBuf[..len];
        recvBuf := recvBuf[len..];
        delivered := delivered + [frame];
      }
      assert delivered + Split(recvBuf).0 == delivered;
    }

    /** One turn of the pump: drain, then poll; the pump ends when the server closes its side or
        receiving fails. */
    method Turn(accepts: nat, poll: Poll)
      requires running
      modifies this
      ensures var drained := WriteAll(old(Out()), accepts);
              var left := if old(handleDropped) then StreamStep(drained, Stop) else drained;
              && Out() == (if poll.Ended? then StreamStep(left, Stop) else left)
              && Incoming() == if left.running && poll.Data? then Feed(old(Incoming()), poll.chunk) else old(Incoming())
    {
      DrainOutgoing(accepts);
      if running {
        match poll
        case Data(chunk) => Receive(chunk);
        case Quiet =>
        case Ended => running := false;
      }
    }
  }
}
