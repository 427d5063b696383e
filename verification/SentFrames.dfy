/** The engine together with its streams (src/engine.rs:1181-1213, src/transport/stream.rs:62-67): whether
    a frame is accepted is decided by the pump, and what was accepted is what the engine says it sent. */
module SentFrames {
  import opened Protocol
  import opened EngineSpec
  import opened Grpc
  import opened MessageStream
  import opened SendAccounting

  /** One stream, by its subscription and everything that happened to it. */
  datatype Stream = Stream(subscribe: Frame, ops: seq<StreamOp>)

  /** The engine, the streams it opened so far, and what became visible. */
  datatype Link = Link(mem: Mem, streams: seq<Stream>, log: seq<Effect>)

  datatype Step =
    | Do(event: Event, subscribe: Frame)   // the subscription is used if the event opens a stream
    | Pump(op: StreamOp)

  /** How effects that are frames are encoded. */
  type Encoder = Effect -> Frame

  predicate IsFrame(x: Effect) {
    x.SendFrame? || x.AckFrame? || x.UiReceipt?
  }

  function Encoded(enc: Encoder, effects: seq<Effect>): seq<Frame> {
    if effects == [] then []
    else
      var last := effects[|effects| - 1];
      Encoded(enc, effects[..|effects| - 1]) + if IsFrame(last) then [enc(last)] else []
  }

  function State(s: Stream): Outgoing {
    StreamRun(s.subscribe, s.ops)
  }

  function Enqueued(streams: seq<Stream>): seq<Frame> {
    if streams == [] then []
    else Enqueued(streams[..|streams| - 1]) + State(streams[|streams| - 1]).enqueued
  }

  // ── Steps ───────────────────────────────────────────────────────────────────

  predicate Accepting(streams: seq<Stream>) {
    streams != [] && Accepts(State(streams[|streams| - 1]))
  }

  /** The event with the pump's answer in the place of the assumed one. */
  function Answered(e: Event, ok: bool): Event {
    match e
    case SendMessage(c, id, g, x, _) => SendMessage(c, id, g, x, ok)
    case AckMessage(id, _) => AckMessage(id, ok)
    case InitSession(c, b, a, p, n, id, x, _) => InitSession(c, b, a, p, n, id, x, ok)
    case Frame(content, env) => Event.Frame(content, env.(sendOk := ok))
    case PendingMessage(p) => PendingMessage(p.(env := p.env.(sendOk := ok)))
    case _ => e
  }

  function Apply(streams: seq<Stream>, op: StreamOp): seq<Stream> {
    if streams == [] then []
    else
      var n := |streams| - 1;
      streams[..n] + [streams[n].(ops := streams[n].ops + [op])]
  }

  /** A frame waits for room in the channel. */
  predicate Waits(streams: seq<Stream>, frames: seq<Frame>) {
    frames != [] && streams != [] && !Enabled(State(streams[|streams| - 1]), Enqueue(frames[0]))
  }

  function Send(streams: seq<Stream>, frames: seq<Frame>): seq<Stream> {
    if frames == [] then streams else Apply(streams, Enqueue(frames[0]))
  }

  predicate NewStream(effects: seq<Effect>) {
    exists i :: 0 <= i < |effects| && effects[i].StreamReady?
  }

  /** A dropped handle stops its pump; a new handle brings a new one. */
  function Renew(streams: seq<Stream>, o: Outcome, subscribe: Frame): seq<Stream> {
    if NewStream(o.effects) then Apply(streams, Stop) + [Stream(subscribe, [])]
    else if !o.mem.stream then Apply(streams, Stop)
    else streams
  }

  function Result(l: Link, e: Event): Outcome {
    Handle(l.mem, Answered(e, Accepting(l.streams)))
  }

  function Next(enc: Encoder, l: Link, s: Step): Link {
    match s
    case Pump(op) => if op.Enqueue? then l else l.(streams := Apply(l.streams, op))
    case Do(e, subscribe) =>
      var o := Result(l, e);
      var frames := Encoded(enc, o.effects);
      if Waits(l.streams, frames) then l
      else Link(o.mem, Renew(Send(l.streams, frames), o, subscribe), l.log + o.effects)
  }

  function Run(enc: Encoder, limit: nat, steps: seq<Step>): Link {
    if steps == [] then Link(Dead(limit), [], [])
    else Next(enc, Run(enc, limit, steps[..|steps| - 1]), steps[|steps| - 1])
  }

  // ── One event ───────────────────────────────────────────────────────────────

  lemma {:induction false} EncodedAppend(enc: Encoder, a: seq<Effect>, b: seq<Effect>)
    ensures Encoded(enc, a + b) == Encoded(enc, a) + Encoded(enc, b)
  {
    if b == [] {
      assert a + b == a;
    } else {
      assert (a + b)[..|a + b| - 1] == a + b[..|b| - 1];
      EncodedAppend(enc, a, b[..|b| - 1]);
    }
  }

  /** Exactly the effect at `at` is a frame. */
  predicate OnlyFrame(effects: seq<Effect>, at: nat) {
    at < |effects| && IsFrame(effects[at]) && forall i :: 0 <= i < |effects| && i != at ==> !IsFrame(effects[i])
  }

  predicate NoFrame(effects: seq<Effect>) {
    forall i :: 0 <= i < |effects| ==> !IsFrame(effects[i])
  }

  lemma {:induction false} NoFrameEncoded(enc: Encoder, effects: seq<Effect>)
    requires NoFrame(effects)
    ensures Encoded(enc, effects) == []
  {
    if effects != [] { NoFrameEncoded(enc, effects[..|effects| - 1]); }
  }

  lemma OnlyFrameEncoded(enc: Encoder, effects: seq<Effect>, at: nat)
    requires OnlyFrame(effects, at)
    ensures Encoded(enc, effects) == [enc(effects[at])]
  {
    var f := [effects[at]];
    assert effects == effects[..at] + f + effects[at + 1..];
    NoFrameEncoded(enc, effects[..at]);
    NoFrameEncoded(enc, effects[at + 1..]);
    EncodedAppend(enc, effects[..at], f);
    EncodedAppend(enc, effects[..at] + f, effects[at + 1..]);
    assert f[..0] == [];
  }

  /** An event sends at most one frame, and only on a stream that accepts it. */
  predicate SendsOne(m: Mem, ok: bool, o: Outcome) {
    NoFrame(o.effects) || (m.stream && ok && exists at :: 0 <= at <= 1 && OnlyFrame(o.effects, at))
  }

  lemma RespondSendsOne(m: Mem, msg: Incoming, env: Env)
    ensures SendsOne(m, env.sendOk, RespondFirst(m, msg, env))
  {
    var o := RespondFirst(m, msg, env);
    if TryFirst(m, msg, env).Accepted? && m.stream && env.sendOk {
      assert OnlyFrame(o.effects, if env.exportOk then 1 else 0);
    }
  }

  lemma DecryptSendsOne(m: Mem, msg: Incoming, env: Env)
    ensures SendsOne(m, env.sendOk, DecryptOne(m, msg, env))
  {
    var o := DecryptOne(m, msg, env);
    if TryDecrypt(m, msg.sender, msg.payload).Some? && m.stream && env.sendOk {
      assert OnlyFrame(o.effects, if env.exportOk then 1 else 0);
    }
  }

  lemma FrameSendsOne(m: Mem, content: FrameContent, env: Env)
    ensures SendsOne(m, env.sendOk, ReceiveFrame(m, content, env))
  {
    if content.Read? {
      var noted := NoteCursor(m, content.response.cursor);
      match RouteResponse(content.response, env.madeUp) {
        case Responder(msg) => RespondSendsOne(noted, msg, env);
        case Ordinary(msg) => DecryptSendsOne(noted, msg, env);
        case Receipts(ids, t) => ReceiptsAreReceipts(ids);
        case Nothing =>
      }
    }
  }

  lemma MessageSendsOne(m: Mem, e: Event, ok: bool)
    requires (e.SendMessage? || e.InitSession? || e.AckMessage?) && e == Answered(e, ok)
    ensures SendsOne(m, ok, Handle(m, e))
  {
    var o := Handle(m, e);
    if |o.effects| > 0 && IsFrame(o.effects[0]) {
      assert OnlyFrame(o.effects, 0);
    } else if |o.effects| > 1 && IsFrame(o.effects[1]) {
      assert OnlyFrame(o.effects, 1);
    }
  }

  lemma OtherSendsNone(m: Mem, e: Event)
    requires !e.SendMessage? && !e.InitSession? && !e.AckMessage? && !e.Frame? && !e.PendingMessage?
    ensures NoFrame(Handle(m, e).effects)
  {
  }

  lemma EventSendsOne(m: Mem, e: Event, ok: bool)
    ensures SendsOne(m, ok, Handle(m, Answered(e, ok)))
  {
    var a := Answered(e, ok);
    match a {
      case Frame(content, env) => FrameSendsOne(m, content, env);
      case PendingMessage(p) =>
        if Classify(m, p).SessionStart? { RespondSendsOne(m, AsIncoming(p), p.env); }
      case SendMessage(_, _, _, _, _) => MessageSendsOne(m, a, ok);
      case InitSession(_, _, _, _, _, _, _, _) => MessageSendsOne(m, a, ok);
      case AckMessage(_, _) => MessageSendsOne(m, a, ok);
      case _ => OtherSendsNone(m, a);
    }
  }

  // ── Streams ─────────────────────────────────────────────────────────────────

  lemma StreamThen(s: Stream, op: StreamOp)
    ensures State(s.(ops := s.ops + [op])) == StreamStep(State(s), op)
  {
    assert (s.ops + [op])[..|s.ops|] == s.ops;
  }

  lemma EnqueuedPush(streams: seq<Stream>, s: Stream)
    ensures Enqueued(streams + [s]) == Enqueued(streams) + State(s).enqueued
  {
    assert (streams + [s])[..|streams|] == streams;
  }

  /** An operation on the last stream adds what that stream accepted. */
  lemma EnqueuedApply(streams: seq<Stream>, op: StreamOp)
    ensures Enqueued(Apply(streams, op))
            == Enqueued(streams) + if streams != [] && op.Enqueue? && Accepting(streams)
                                      && Enabled(State(streams[|streams| - 1]), op) then [op.frame] else []
  {
    if streams != [] {
      var n := |streams| - 1;
      var changed := streams[n].(ops := streams[n].ops + [op]);
      StreamThen(streams[n], op);
      EnqueuedPush(streams[..n], changed);
    }
  }

  lemma EnqueuedStop(streams: seq<Stream>)
    ensures Enqueued(Apply(streams, Stop)) == Enqueued(streams)
  {
    EnqueuedApply(streams, Stop);
    assert Enqueued(streams) + [] == Enqueued(streams);
  }

  lemma EnqueuedNew(streams: seq<Stream>, subscribe: Frame)
    ensures Enqueued(streams + [Stream(subscribe, [])]) == Enqueued(streams)
  {
    EnqueuedPush(streams, Stream(subscribe, []));
    assert Enqueued(streams) + [] == Enqueued(streams);
  }

  lemma EnqueuedRenew(streams: seq<Stream>, o: Outcome, subscribe: Frame)
    ensures Enqueued(Renew(streams, o, subscribe)) == Enqueued(streams)
  {
    EnqueuedStop(streams);
    EnqueuedNew(Apply(streams, Stop), subscribe);
  }

  /** Everything the streams accepted is what the engine reported as visible, in order. */
  predicate Balanced(enc: Encoder, l: Link) {
    Enqueued(l.streams) == Encoded(enc, l.log)
  }

  lemma EventBalanced(enc: Encoder, l: Link, e: Event, subscribe: Frame)
    requires Balanced(enc, l)
    ensures Balanced(enc, Next(enc, l, Do(e, subscribe)))
  {
    var o := Result(l, e);
    var frames := Encoded(enc, o.effects);
    if !Waits(l.streams, frames) {
      EventSendsOne(l.mem, e, Accepting(l.streams));
      EncodedAppend(enc, l.log, o.effects);
      EnqueuedRenew(Send(l.streams, frames), o, subscribe);
      if NoFrame(o.effects) {
        NoFrameEncoded(enc, o.effects);
      } else {
        var at :| 0 <= at <= 1 && OnlyFrame(o.effects, at);
        OnlyFrameEncoded(enc, o.effects, at);
        EnqueuedApply(l.streams, Enqueue(frames[0]));
      }
    }
  }

  lemma {:induction false} RunBalanced(enc: Encoder, limit: nat, steps: seq<Step>)
    ensures Balanced(enc, Run(enc, limit, steps))
  {
    if steps != [] {
      var before := Run(enc, limit, steps[..|steps| - 1]);
      RunBalanced(enc, limit, steps[..|steps| - 1]);
      match steps[|steps| - 1]
      case Do(e, subscribe) => EventBalanced(enc, before, e, subscribe);
      case Pump(op) => EnqueuedApply(before.streams, op);
    }
  }

  // ── Statuses ────────────────────────────────────────────────────────────────

  /** A status is SENT exactly if the frame of its message was accepted right before. */
  predicate StatusFollows(log: seq<Effect>, i: nat)
    requires i < |log|
  {
    log[i].Status? ==>
      (log[i].code == SENT <==> i > 0 && log[i - 1].SendFrame?)
      && (log[i].code == SENT ==> log[i - 1].localId == log[i].statusId)
  }

  predicate Truthful(log: seq<Effect>) {
    && (forall i :: 0 <= i < |log| ==> StatusFollows(log, i))
    && (log != [] ==> !log[|log| - 1].SendFrame?)
  }

  lemma MessageTruthful(m: Mem, e: Event)
    requires e.SendMessage? || e.InitSession?
    ensures Truthful(Handle(m, e).effects)
  {
  }

  lemma EventTruthful(m: Mem, e: Event)
    ensures Truthful(Handle(m, e).effects)
  {
    match e {
      case SendMessage(_, _, _, _, _) => MessageTruthful(m, e);
      case InitSession(_, _, _, _, _, _, _, _) => MessageTruthful(m, e);
      case Frame(content, env) => FramePlain(m, content, env);
      case _ => OthersPlain(m, e);
    }
  }

  lemma TruthfulAppend(a: seq<Effect>, b: seq<Effect>)
    requires Truthful(a) && Truthful(b)
    ensures Truthful(a + b)
  {
    forall i | 0 <= i < |a + b| ensures StatusFollows(a + b, i) {
      if i < |a| { assert StatusFollows(a, i); } else { assert StatusFollows(b, i - |a|); }
    }
  }

  lemma {:induction false} RunTruthful(enc: Encoder, limit: nat, steps: seq<Step>)
    ensures Truthful(Run(enc, limit, steps).log)
  {
    if steps != [] {
      var before := Run(enc, limit, steps[..|steps| - 1]);
      RunTruthful(enc, limit, steps[..|steps| - 1]);
      match steps[|steps| - 1]
      case Do(e, _) =>
        EventTruthful(before.mem, Answered(e, Accepting(before.streams)));
        TruthfulAppend(before.log, Result(before, e).effects);
      case Pump(_) =>
    }
  }

  lemma {:induction false} FrameIsEncoded(enc: Encoder, effects: seq<Effect>, i: nat)
    requires i < |effects| && IsFrame(effects[i])
    ensures enc(effects[i]) in Encoded(enc, effects)
  {
    if i < |effects| - 1 { FrameIsEncoded(enc, effects[..|effects| - 1], i); }
  }

  /** Right before effect `i`, a stream accepted the frame of the message that the status is about. */
  predicate AcceptedBefore(enc: Encoder, l: Link, i: nat)
    requires i < |l.log| && l.log[i].Status?
  {
    && i > 0 && l.log[i - 1].SendFrame? && l.log[i - 1].localId == l.log[i].statusId
    && enc(l.log[i - 1]) in Enqueued(l.streams)
  }

  /** The subscription and then a first-in first-out prefix of what was accepted. */
  predicate InOrder(s: Stream) {
    var out := State(s);
    out.wire != [] && out.wire[0] == s.subscribe && out.wire[1..] <= out.enqueued
  }

  predicate Joined(enc: Encoder, l: Link) {
    && Enqueued(l.streams) == Encoded(enc, l.log)
    && (forall k :: 0 <= k < |l.streams| ==> InOrder(l.streams[k]))
    && forall i :: 0 <= i < |l.log| && l.log[i].Status? ==> (l.log[i].code == SENT <==> AcceptedBefore(enc, l, i))
  }

  /** Over every run of the engine with its streams, however the pumps write, fail and end: the streams
      together accepted exactly the frames that the engine put out, in order; each stream's wire holds
      its subscription and then a first-in first-out prefix of what it accepted; and a message is
      reported as sent exactly if its frame was accepted right before. */
  lemma {:induction false} SentMeansAccepted(enc: Encoder, limit: nat, steps: seq<Step>)
    ensures Joined(enc, Run(enc, limit, steps))
  {
    var l := Run(enc, limit, steps);
    RunBalanced(enc, limit, steps);
    RunTruthful(enc, limit, steps);
    forall k | 0 <= k < |l.streams| ensures InOrder(l.streams[k]) {
      WireIsFifoPrefix(l.streams[k].subscribe, l.streams[k].ops);
    }
    forall i | 0 <= i < |l.log| && l.log[i].Status?
      ensures l.log[i].code == SENT <==> AcceptedBefore(enc, l, i)
    {
      assert StatusFollows(l.log, i);
      if l.log[i].code == SENT { FrameIsEncoded(enc, l.log, i - 1); }
    }
  }
}
