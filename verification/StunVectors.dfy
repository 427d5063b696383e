/** The STUN parser against literal bytes, and what it refuses (src/p2p/stun.rs:133-252). The sample
    address is the one of the test vectors of RFC 5769, section 2.2. */
module StunVectors {
  import opened Bytes
  import opened Wrappers
  import opened Stun

  const SAMPLE: string := "192.0.2.1:32853"

  lemma SampleText()
    ensures Printed([192, 0, 2, 1], 32853) == SAMPLE
  {
    assert Decimal(192) == "192" && Decimal(0) == "0" && Decimal(2) == "2" && Decimal(1) == "1";
    assert Decimal(32853) == "32853";
  }

  /** The bits of a number, highest first. */
  function Number(bits: seq<nat>): nat {
    if bits == [] then 0 else 2 * Number(bits[..|bits| - 1]) + bits[|bits| - 1]
  }

  predicate AreBits(bits: seq<nat>) {
    forall i :: 0 <= i < |bits| ==> bits[i] < 2
  }

  /** Exclusive or works bit by bit. */
  lemma {:induction false} XorBits(a: seq<nat>, b: seq<nat>, r: seq<nat>)
    requires |a| == |b| == |r| && AreBits(a) && AreBits(b)
    requires forall i :: 0 <= i < |a| ==> r[i] == if a[i] == b[i] then 0 else 1
    ensures Xor(|a|, Number(a), Number(b)) == Number(r)
  {
    if a != [] {
      var n := |a| - 1;
      XorBits(a[..n], b[..n], r[..n]);
      XorLast(n, Number(a[..n]), Number(b[..n]), a[n], b[n]);
    }
  }

  lemma XorLast(n: nat, a: nat, b: nat, x: nat, y: nat)
    requires x < 2 && y < 2
    ensures Xor(n + 1, 2 * a + x, 2 * b + y) == 2 * Xor(n, a, b) + (if x == y then 0 else 1)
  {
    HalfOf(a, x);
    HalfOf(b, y);
  }

  lemma HalfOf(n: nat, bit: nat)
    requires bit < 2
    ensures (2 * n + bit) / 2 == n && (2 * n + bit) % 2 == bit
  {
  }

  lemma NumberNext(a: seq<nat>, bit: nat)
    ensures Number(a + [bit]) == 2 * Number(a) + bit
  {
    assert (a + [bit])[..|a|] == a;
  }

  lemma NumberJoins(a: seq<nat>, b: nat, c: nat, d: nat, e: nat)
    ensures Number(a + [b, c, d, e]) == 16 * Number(a) + 8 * b + 4 * c + 2 * d + e
  {
    NumberNext(a, b);
    NumberNext(a + [b], c);
    NumberNext(a + [b] + [c], d);
    NumberNext(a + [b] + [c] + [d], e);
    assert a + [b, c, d, e] == a + [b] + [c] + [d] + [e];
  }

  // Nibbles.
  const N0: seq<nat> := [0, 0, 0, 0]
  const N1: seq<nat> := [0, 0, 0, 1]
  const N2: seq<nat> := [0, 0, 1, 0]
  const N3: seq<nat> := [0, 0, 1, 1]
  const N4: seq<nat> := [0, 1, 0, 0]
  const N5: seq<nat> := [0, 1, 0, 1]
  const N6: seq<nat> := [0, 1, 1, 0]
  const N7: seq<nat> := [0, 1, 1, 1]
  const N8: seq<nat> := [1, 0, 0, 0]
  const NA: seq<nat> := [1, 0, 1, 0]
  const NC: seq<nat> := [1, 1, 0, 0]
  const NE: seq<nat> := [1, 1, 1, 0]

  function Nibble(a: seq<nat>): nat
    requires |a| == 4
  {
    8 * a[0] + 4 * a[1] + 2 * a[2] + a[3]
  }

  lemma NibbleJoins(a: seq<nat>, b: seq<nat>)
    requires |b| == 4
    ensures Number(a + b) == 16 * Number(a) + Nibble(b)
  {
    assert b == [b[0], b[1], b[2], b[3]];
    NumberJoins(a, b[0], b[1], b[2], b[3]);
  }

  lemma OneByte(a: seq<nat>, b: seq<nat>)
    requires |a| == |b| == 4
    ensures Number(a + b) == 16 * Nibble(a) + Nibble(b)
  {
    assert [] + a == a;
    NibbleJoins([], a);
    NibbleJoins(a, b);
  }

  lemma TwoBytes(a: seq<nat>, b: seq<nat>, c: seq<nat>, d: seq<nat>)
    requires |a| == |b| == |c| == |d| == 4
    ensures Number(a + b + c + d) == 4096 * Nibble(a) + 256 * Nibble(b) + 16 * Nibble(c) + Nibble(d)
  {
    OneByte(a, b);
    NibbleJoins(a + b, c);
    NibbleJoins(a + b + c, d);
  }

  /** 0xe1 and 0x21 make 192. */
  lemma SampleByte0()
    ensures Xor8(0xe1, 0x21) == 192
  {
    OneByte(NE, N1);
    OneByte(N2, N1);
    OneByte(NC, N0);
    XorBits(NE + N1, N2 + N1, NC + N0);
  }

  /** A byte with itself makes 0. */
  lemma SampleByte1()
    ensures Xor8(0x12, 0x12) == 0
  {
    OneByte(N1, N2);
    OneByte(N1, N2);
    OneByte(N0, N0);
    XorBits(N1 + N2, N1 + N2, N0 + N0);
  }

  /** 0xa6 and 0xa4 make 2. */
  lemma SampleByte2()
    ensures Xor8(0xa6, 0xa4) == 2
  {
    OneByte(NA, N6);
    OneByte(NA, N4);
    OneByte(N0, N2);
    XorBits(NA + N6, NA + N4, N0 + N2);
  }

  /** 0x43 and 0x42 make 1. */
  lemma SampleByte3()
    ensures Xor8(0x43, 0x42) == 1
  {
    OneByte(N4, N3);
    OneByte(N4, N2);
    OneByte(N0, N1);
    XorBits(N4 + N3, N4 + N2, N0 + N1);
  }

  /** 0xa147 and 0x2112 make 0x8055, which is 32853. */
  lemma SamplePort()
    ensures Xor16(0xa147, 0x2112) == 32853
  {
    TwoBytes(NA, N1, N4, N7);
    TwoBytes(N2, N1, N1, N2);
    TwoBytes(N8, N0, N5, N5);
    XorBits(NA + N1 + N4 + N7, N2 + N1 + N1 + N2, N8 + N0 + N5 + N5);
  }

  const VALUE: seq<byte> := [0, 1, 0xa1, 0x47, 0xe1, 0x12, 0xa6, 0x43]
  const PLAIN: seq<byte> := [0, 1, 0x80, 0x55, 192, 0, 2, 1]

  lemma SampleUnmasked()
    ensures XorBytes(VALUE[4..8], COOKIE) == [192, 0, 2, 1] && MappedPort(VALUE, true) == 32853
  {
    SampleByte0();
    SampleByte1();
    SampleByte2();
    SampleByte3();
    SamplePort();
  }

  /** An XOR-MAPPED-ADDRESS value for the sample. */
  lemma SampleMasked()
    ensures ParseAddress(VALUE, true) == Mapped4(SAMPLE)
  {
    SampleText();
    SampleUnmasked();
  }

  /** A MAPPED-ADDRESS value for the sample. */
  lemma SamplePlain()
    ensures ParseAddress(PLAIN, false) == Mapped4(SAMPLE)
  {
    SampleText();
    assert PLAIN[4..8] == [192, 0, 2, 1];
  }

  /** A success response, byte by byte: type 0x0101, length 12, the magic cookie, the transaction id, and
      one XOR-MAPPED-ADDRESS attribute of type 0x0020 and length 8. */
  function SampleResponse(tid: seq<byte>): seq<byte> {
    [1, 1, 0, 12, 0x21, 0x12, 0xA4, 0x42] + tid + ([0, 0x20, 0, 8] + VALUE)
  }

  lemma SampleAttribute(tid: seq<byte>)
    requires |tid| == 12
    ensures FirstMapped(SampleResponse(tid), 20, 32) == Some(Attribute(0x20, VALUE))
  {
    var r := SampleResponse(tid);
    assert r[20..] == [0, 0x20, 0, 8] + VALUE;
    assert r[20] == r[20..][0] && r[21] == r[20..][1] && r[22] == r[20..][2] && r[23] == r[20..][3];
    assert r[24..32] == r[20..][4..12] == VALUE;
  }

  lemma SampleHead(tid: seq<byte>)
    requires |tid| == 12
    ensures var r := SampleResponse(tid);
            && |r| == 32 && GetU16(r, 0) == 0x0101 && GetU16(r, 2) == 12
            && r[8..20] == tid && r[4..16] == [0x21, 0x12, 0xA4, 0x42] + tid[..8]
  {
  }

  /** With the transaction id at byte 8 the sample address is read from it. */
  lemma SampleParses(tid: seq<byte>)
    requires |tid| == 12
    ensures Parse(SampleResponse(tid), tid, 8) == Mapped4(SAMPLE)
  {
    SampleHead(tid);
    SampleAttribute(tid);
    SampleMasked();
    assert Interpret(Some(Attribute(0x20, VALUE))) == Mapped4(SAMPLE);
  }

  /** At byte 4 it is refused unless the id is the magic cookie three times. */
  lemma SampleRefused(tid: seq<byte>)
    requires |tid| == 12
    ensures Parse(SampleResponse(tid), tid, 4) == Failed(WrongTransaction)
            <==> tid != [0x21, 0x12, 0xA4, 0x42, 0x21, 0x12, 0xA4, 0x42, 0x21, 0x12, 0xA4, 0x42]
  {
    SampleHead(tid);
    Refusals(SampleResponse(tid), tid, 4);
    assert SampleResponse(tid)[..2] == [1, 1];
    ShiftedId(tid);
    assert COOKIE + COOKIE + COOKIE == [0x21, 0x12, 0xA4, 0x42, 0x21, 0x12, 0xA4, 0x42, 0x21, 0x12, 0xA4, 0x42];
  }

  /** A plain IPv6 address comes back with its port. */
  lemma PlainAddress6RoundTrip(reserved: byte, ip: seq<byte>, port: nat, extra: seq<byte>)
    requires |ip| == 16 && port < 65536
    ensures ParseAddress([reserved, 2] + PutU16(port) + ip + extra, false) == Mapped6(ip, port)
  {
    ValueFields(reserved, 2, port, ip, extra);
  }

  /** As written, an XOR-mapped IPv6 value is unmasked in its first four bytes and nowhere else. */
  lemma MaskedAddress6(data: seq<byte>)
    requires |data| >= 20 && data[1] == 2
    ensures var r := ParseAddress(data, true);
            && r.Mapped6? && |r.ip| == 16 && r.port == Xor16(GetU16(data, 2), 0x2112)
            && r.ip[0] == Xor8(data[4], 0x21) && r.ip[1] == Xor8(data[5], 0x12)
            && r.ip[2] == Xor8(data[6], 0xA4) && r.ip[3] == Xor8(data[7], 0x42)
            && r.ip[4..] == data[8..20]
  {
    var ip := ParseAddress(data, true).ip;
    forall i | 4 <= i < 16 ensures ip[i] == data[4 + i] {
    }
  }

  /** The attribute types that carry an address. */
  lemma MappedKinds(kind: nat)
    ensures IsMapped(kind) <==> kind == 0x0001 || kind == 0x0020
  {
  }

  /** Which response is refused for which reason, exactly. */
  lemma Refusals(r: seq<byte>, tid: seq<byte>, position: nat)
    requires |tid| == 12 && position + 12 <= 20
    ensures Parse(r, tid, position) == Failed(TooShort) <==> |r| < 20
    ensures Parse(r, tid, position) == Failed(WrongType) <==> |r| >= 20 && r[..2] != [1, 1]
    ensures Parse(r, tid, position) == Failed(WrongTransaction)
            <==> |r| >= 20 && r[..2] == [1, 1] && r[position..position + 12] != tid
    ensures Parse(r, tid, position) == Failed(NoAddress)
            <==> |r| >= 20 && r[..2] == [1, 1] && r[position..position + 12] == tid
                 && FirstMapped(r, 20, 20 + GetU16(r, 2)).None?
  {
    if |r| >= 20 {
      assert r[..2] == [r[0], r[1]];
    }
  }

  /** Which address value is refused for which reason, exactly. */
  lemma AddressRefusals(data: seq<byte>, xored: bool)
    ensures ParseAddress(data, xored) == Failed(AddressTooShort)
            <==> |data| < 4 || (data[1] == 1 && |data| < 8) || (data[1] == 2 && |data| < 20)
    ensures ParseAddress(data, xored) == Failed(UnknownFamily) <==> |data| >= 4 && data[1] != 1 && data[1] != 2
    ensures ParseAddress(data, xored).Mapped4? <==> |data| >= 8 && data[1] == 1
    ensures ParseAddress(data, xored).Mapped6? <==> |data| >= 20 && data[1] == 2
  {
  }
}
