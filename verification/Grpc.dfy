/** gRPC length-prefixed messages (src/transport/grpc.rs): the Length-Prefixed-Message rule of
    the "Requests" section of the gRPC over HTTP/2 protocol document. */
module Grpc {
  import opened Bytes

  type Frame = seq<byte>

  datatype FrameError = TooShort | Compressed | Incomplete
  datatype Decoded = Ok(message: seq<byte>, rest: seq<byte>) | Err(error: FrameError)

  const HEADER: nat := 5

  /** A frame with any compression flag; the encoder only ever writes flag 0. */
  function RawFrame(flag: byte, body: seq<byte>): (f: Frame)
    ensures |f| == HEADER + |body|
  {
    [flag] + PutU32(|body|) + body
  }

  method EncodeFrame(message: seq<byte>) returns (frame: Frame)
    ensures frame == RawFrame(0, message)
  {
    frame := [0];
    frame := frame + PutU32(|message|);
    frame := frame + message;
  }

  /** The decoder: the flag is looked at before the length, the length before the body. */
  function Decode(data: seq<byte>): Decoded {
    if |data| < HEADER then Err(TooShort)
    else if data[0] != 0 then Err(Compressed)
    else
      var len := GetU32(data, 1);
      if |data| - HEADER < len then Err(Incomplete)
      else Ok(data[HEADER..HEADER + len], data[HEADER + len..])
  }

  /** `decode_grpc_frame` consumes `data` step by step. */
  method DecodeFrame(data: seq<byte>) returns (r: Decoded)
    ensures r == Decode(data)
  {
    if |data| < HEADER {
      return Err(TooShort);
    }
    var left := data;
    var flag := left[0];
    left := left[1..];
    if flag != 0 {
      return Err(Compressed);
    }
    var len := GetU32(left, 0);
    left := left[4..];
    if |left| < len {
      return Err(Incomplete);
    }
    var message := left[..len];
    left := left[len..];
    return Ok(message, left);
  }

  lemma RawFrameHeader(flag: byte, body: seq<byte>, after: seq<byte>)
    ensures GetU32(RawFrame(flag, body) + after, 1) == |body| % U32_LIMIT
    ensures (RawFrame(flag, body) + after)[0] == flag
  {
    U32RoundTrip(|body|, [flag], body + after);
    assert RawFrame(flag, body) + after == [flag] + PutU32(|body|) + (body + after);
  }

  /** Decoding an encoded message followed by anything gives the message back, exactly for the
      messages whose length fits the 32-bit field; a longer one is cut at its length's low bits. */
  lemma DecodeEncoded(message: seq<byte>, after: seq<byte>)
    ensures Decode(RawFrame(0, message) + after) == Ok(message, after) <==> |message| < U32_LIMIT
    ensures var kept := |message| % U32_LIMIT;
            Decode(RawFrame(0, message) + after) == Ok(message[..kept], message[kept..] + after)
  {
    RawFrameHeader(0, message, after);
    var kept := |message| % U32_LIMIT;
    assert kept <= |message|;
    BodyAt(message, after, kept);
    if |message| >= U32_LIMIT {
      assert |message[..kept]| != |message|;
    }
  }

  lemma BodyAt(message: seq<byte>, after: seq<byte>, kept: nat)
    requires kept <= |message|
    ensures var data := RawFrame(0, message) + after;
            data[HEADER..HEADER + kept] == message[..kept] && data[HEADER + kept..] == message[kept..] + after
  {
    assert (RawFrame(0, message) + after)[HEADER..] == message + after;
  }

  /** A frame marked as compressed is refused whatever it holds. */
  lemma CompressedRefused(flag: byte, body: seq<byte>, after: seq<byte>)
    ensures Decode(RawFrame(flag, body) + after) == Err(Compressed) <==> flag != 0
  {
    if flag == 0 {
      DecodeEncoded(body, after);
    }
  }

  /** The format, byte by byte: the flag, the length as four bytes with the most significant one first,
      and the message. */
  lemma FrameFormat(flag: byte, body: seq<byte>)
    ensures var f := RawFrame(flag, body);
            && |f| == 5 + |body| && f[0] == flag && f[5..] == body
            && f[1] as nat * 16777216 + f[2] as nat * 65536 + f[3] as nat * 256 + f[4] as nat == |body| % 4294967296
  {
    U32Digits(|body|);
  }

  /** Which bytes are refused for which reason, exactly. */
  lemma DecodeRefusals(data: seq<byte>)
    ensures Decode(data) == Err(TooShort) <==> |data| < 5
    ensures Decode(data) == Err(Compressed) <==> |data| >= 5 && data[0] != 0
    ensures Decode(data) == Err(Incomplete) <==> |data| >= 5 && data[0] == 0 && |data| - 5 < GetU32(data, 1)
  {
  }
}
