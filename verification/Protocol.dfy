/** Messages of the MessageStream and the routing of incoming ones (src/engine.rs). The generated
    protobuf code is a parameter: an encoder and a decoder that undoes it. */
module Protocol {
  import opened Bytes
  import opened Wrappers
  import Grpc

  type Contact = string
  type SessionId = nat

  /** The server's opaque stream cursor, as the position it stands for. */
  type Cursor = int

  /** Identifies a pre-key of ours. */
  type KeyId = nat

  /** The double-ratchet payload: `Garbage` cannot be unpacked; `genuine` payloads authenticate. A
      session start names the one-time pre-key that the peer was given, if it was given one. */
  datatype WirePayload =
    | Empty
    | Garbage
    | Packed(session: SessionId, number: nat, body: seq<byte>, genuine: bool, otpk: Option<KeyId>)

  datatype Envelope = Envelope(sender: Option<Contact>, payload: WirePayload, messageId: Option<string>,
                               conversation: string, timestamp: int)

  datatype Response =
    | Message(envelope: Envelope)
    | ServerAck(messageId: string)
    | DirectReceipt(messageIds: seq<string>, receiptTime: int)
    | HeartbeatAck
    | OtherResponse

  datatype StreamResponse = StreamResponse(cursor: Option<Cursor>, response: Option<Response>)

  /** An incoming message as the handlers receive it. */
  datatype Incoming = Incoming(sender: Contact, payload: WirePayload, messageId: string,
                               conversation: string, timestamp: int)

  // ── Decoding ────────────────────────────────────────────────────────────────

  datatype Codec = Codec(encode: StreamResponse -> seq<byte>, decode: seq<byte> -> Option<StreamResponse>)

  ghost predicate Faithful(codec: Codec) {
    forall r :: codec.decode(codec.encode(r)) == Some(r)
  }

  datatype FrameContent = Unreadable | Read(response: StreamResponse)

  /** What the engine reads from a frame; a bad gRPC frame and an undecodable message are both skipped. */
  function ReadFrame(codec: Codec, frame: seq<byte>): FrameContent {
    match Grpc.Decode(frame)
    case Err(_) => Unreadable
    case Ok(body, _) =>
      match codec.decode(body)
      case None => Unreadable
      case Some(r) => Read(r)
  }

  // ── Routing ─────────────────────────────────────────────────────────────────

  datatype Route =
    | Nothing
    | Receipts(messageIds: seq<string>, receiptTime: int)
    | Responder(message: Incoming)       // message number 0: a session starts
    | Ordinary(message: Incoming)

  /** `madeUp` is the identifier made up for an envelope that carries none. */
  function RouteEnvelope(e: Envelope, madeUp: string): Route {
    var sender := e.sender.GetOr("");
    if sender == "" then Nothing
    else if !e.payload.Packed? then Nothing
    else
      var m := Incoming(sender, e.payload, e.messageId.GetOr(madeUp), e.conversation, e.timestamp);
      if e.payload.number == 0 then Responder(m) else Ordinary(m)
  }

  function RouteResponse(r: StreamResponse, madeUp: string): Route {
    match r.response
    case Some(Message(e)) => RouteEnvelope(e, madeUp)
    case Some(DirectReceipt(ids, t)) => Receipts(ids, t)
    case _ => Nothing
  }

  // ── Healing retries ─────────────────────────────────────────────────────────

  /** The message a failed session start is wrapped in before it re-enters the frame queue. */
  function RetryResponse(m: Incoming): StreamResponse {
    var e := Envelope(Some(m.sender), m.payload, Some(m.messageId), m.conversation, m.timestamp);
    StreamResponse(None, Some(Message(e)))
  }

  /** A retried message, once encoded, framed, decoded and routed, comes back to the responder path
      unchanged and carries no cursor, exactly for a nonempty sender and message number 0; anything
      else would be dropped or would leave the responder path. */
  lemma RetryReenters(codec: Codec, m: Incoming, madeUp: string)
    requires Faithful(codec)
    requires |codec.encode(RetryResponse(m))| < U32_LIMIT
    ensures ReadFrame(codec, Grpc.RawFrame(0, codec.encode(RetryResponse(m)))) == Read(RetryResponse(m))
    ensures RetryResponse(m).cursor == None
    ensures RouteResponse(RetryResponse(m), madeUp) == Responder(m)
            <==> m.sender != "" && m.payload.Packed? && m.payload.number == 0
  {
    var body := codec.encode(RetryResponse(m));
    Grpc.DecodeEncoded(body, []);
    assert Grpc.RawFrame(0, body) + [] == Grpc.RawFrame(0, body);
  }

  /** Whatever the stream routed to the responder path can therefore be retried any number of times. */
  lemma RoutedMessagesRetry(r: StreamResponse, madeUp: string, later: string)
    requires RouteResponse(r, madeUp).Responder?
    ensures var m := RouteResponse(r, madeUp).message;
            RouteResponse(RetryResponse(m), later) == Responder(m)
  {
  }

  /** What arrives: a response that was encoded and framed is read back; a flagged frame is skipped. */
  lemma FrameReads(codec: Codec, r: StreamResponse, flag: byte)
    requires Faithful(codec) && |codec.encode(r)| < U32_LIMIT
    ensures ReadFrame(codec, Grpc.RawFrame(flag, codec.encode(r))) == if flag == 0 then Read(r) else Unreadable
  {
    var body := codec.encode(r);
    assert Grpc.RawFrame(flag, body) + [] == Grpc.RawFrame(flag, body);
    Grpc.CompressedRefused(flag, body, []);
    if flag == 0 { Grpc.DecodeEncoded(body, []); }
  }
}
