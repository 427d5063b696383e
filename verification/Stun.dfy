/** STUN binding requests and responses (src/p2p/stun.rs): sections 5, 14, 14.1 and 14.2 of RFC 8489. */
module Stun {
  import opened Bytes
  import opened Wrappers
  import opened Powers

  // ── Exclusive or on bounded integers ────────────────────────────────────────

  /** Bitwise exclusive or of the low `width` bits. */
  function Xor(width: nat, a: nat, b: nat): nat {
    if width == 0 then 0
    else (a % 2 + b % 2) % 2 + 2 * Xor(width - 1, a / 2, b / 2)
  }

  lemma {:induction false} XorBound(width: nat, a: nat, b: nat)
    ensures Xor(width, a, b) < Pow2(width)
  {
    if width != 0 { XorBound(width - 1, a / 2, b / 2); }
  }

  lemma {:induction false} XorTwice(width: nat, a: nat, b: nat)
    requires a < Pow2(width)
    ensures Xor(width, Xor(width, a, b), b) == a
  {
    if width != 0 {
      XorTwice(width - 1, a / 2, b / 2);
      BitAndRest((a % 2 + b % 2) % 2, Xor(width - 1, a / 2, b / 2));
    }
  }

  lemma BitAndRest(bit: nat, rest: nat)
    requires bit < 2
    ensures (bit + 2 * rest) / 2 == rest && (bit + 2 * rest) % 2 == bit
  {
  }

  lemma {:induction false} XorUnchanged(width: nat, a: nat, b: nat)
    requires a < Pow2(width) && b < Pow2(width)
    ensures Xor(width, a, b) == a <==> b == 0
  {
    if width != 0 {
      XorUnchanged(width - 1, a / 2, b / 2);
    }
  }

  function Xor8(a: byte, b: byte): byte {
    XorBound(8, a, b);
    assert Pow2(8) == 0x100;
    Xor(8, a, b)
  }

  function Xor16(a: nat, b: nat): (r: nat)
    ensures r < U16_LIMIT
  {
    XorBound(16, a, b);
    assert Pow2(8) == 0x100;
    assert Pow2(16) == 0x1_0000;
    Xor(16, a, b)
  }

  /** `data` with `mask` applied to its first bytes. */
  function XorBytes(data: seq<byte>, mask: seq<byte>): (r: seq<byte>)
    requires |mask| <= |data|
    ensures |r| == |data|
  {
    seq(|data|, i requires 0 <= i < |data| => if i < |mask| then Xor8(data[i], mask[i]) else data[i])
  }

  lemma XorBytesTwice(data: seq<byte>, mask: seq<byte>)
    requires |mask| <= |data|
    ensures XorBytes(XorBytes(data, mask), mask) == data
  {
    assert Pow2(8) == 0x100;
    forall i | 0 <= i < |mask| ensures Xor8(Xor8(data[i], mask[i]), mask[i]) == data[i] {
      XorTwice(8, data[i], mask[i]);
    }
  }

  // ── Printing an IPv4 address ────────────────────────────────────────────────

  function Digit(d: nat): char
    requires d < 10
  {
    '0' + d as char
  }

  function Decimal(n: nat): string {
    if n < 10 then [Digit(n)] else Decimal(n / 10) + [Digit(n % 10)]
  }

  function Printed(ip: seq<byte>, port: nat): string
    requires |ip| == 4
  {
    Decimal(ip[0]) + "." + (Decimal(ip[1]) + "." + (Decimal(ip[2]) + "." + (Decimal(ip[3]) + ":" + Decimal(port))))
  }

  predicate AllDigits(s: string) {
    forall i :: 0 <= i < |s| ==> '0' <= s[i] <= '9'
  }

  lemma {:induction false} DecimalDigits(n: nat)
    ensures Decimal(n) != [] && AllDigits(Decimal(n))
  {
    if n >= 10 { DecimalDigits(n / 10); }
  }

  lemma {:induction false} DecimalInjective(n: nat, m: nat)
    requires Decimal(n) == Decimal(m)
    ensures n == m
    decreases n
  {
    DecimalDigits(n / 10);
    DecimalDigits(m / 10);
    var s, t := Decimal(n), Decimal(m);
    if n >= 10 && m >= 10 {
      assert s[..|s| - 1] == Decimal(n / 10) && t[..|t| - 1] == Decimal(m / 10);
      assert s[|s| - 1] == Digit(n % 10) && t[|t| - 1] == Digit(m % 10);
      DecimalInjective(n / 10, m / 10);
    }
  }

  lemma CutAtSeparator(a: string, x: string, b: string, y: string, separator: char)
    requires a + [separator] + x == b + [separator] + y
    requires AllDigits(a) && AllDigits(b) && !('0' <= separator <= '9')
    ensures a == b && x == y
  {
    var s, t := a + [separator] + x, b + [separator] + y;
    assert s[|a|] == separator && t[|b|] == separator;
    assert forall i :: 0 <= i < |a| ==> '0' <= s[i] <= '9';
    assert forall i :: 0 <= i < |b| ==> '0' <= t[i] <= '9';
    assert s[..|a|] == a && t[..|b|] == b;
    assert s[|a| + 1..] == x && t[|b| + 1..] == y;
  }

  /** The decimal text determines the address and the port. */
  lemma PrintedInjective(ip: seq<byte>, port: nat, other: seq<byte>, otherPort: nat)
    requires |ip| == |other| == 4
    requires Printed(ip, port) == Printed(other, otherPort)
    ensures ip == other && port == otherPort
  {
    forall i | 0 <= i < 4 ensures AllDigits(Decimal(ip[i])) && AllDigits(Decimal(other[i])) {
      DecimalDigits(ip[i]);
      DecimalDigits(other[i]);
    }
    var p3, q3 := Decimal(ip[3]) + ":" + Decimal(port), Decimal(other[3]) + ":" + Decimal(otherPort);
    var p2, q2 := Decimal(ip[2]) + "." + p3, Decimal(other[2]) + "." + q3;
    var p1, q1 := Decimal(ip[1]) + "." + p2, Decimal(other[1]) + "." + q2;
    CutAtSeparator(Decimal(ip[0]), p1, Decimal(other[0]), q1, '.');
    CutAtSeparator(Decimal(ip[1]), p2, Decimal(other[1]), q2, '.');
    CutAtSeparator(Decimal(ip[2]), p3, Decimal(other[2]), q3, '.');
    CutAtSeparator(Decimal(ip[3]), Decimal(port), Decimal(other[3]), Decimal(otherPort), ':');
    DecimalInjective(port, otherPort);
    forall i | 0 <= i < 4 ensures ip[i] == other[i] {
      DecimalInjective(ip[i], other[i]);
    }
  }

  // ── Messages ────────────────────────────────────────────────────────────────

  const COOKIE: seq<byte> := [0x21, 0x12, 0xA4, 0x42]
  const COOKIE_HIGH: nat := 0x2112
  const BINDING_SUCCESS: nat := 0x0101
  const MAPPED_ADDRESS: nat := 0x0001
  const XOR_MAPPED_ADDRESS: nat := 0x0020
  const HEADER: nat := 20
  const TID: nat := 12
  /** Where the code looks for the transaction id, and where its comment and the RFC place it. */
  const TID_AS_WRITTEN: nat := 4
  const TID_DOCUMENTED: nat := 8

  datatype Attribute = Attribute(kind: nat, value: seq<byte>)
  datatype StunError = TooShort | WrongType | WrongTransaction | NoAddress | AddressTooShort | UnknownFamily
  datatype StunResult =
    | Mapped4(text: string)
    | Mapped6(ip: seq<byte>, port: nat)
    | Failed(error: StunError)

  predicate IsMapped(kind: nat) {
    kind == XOR_MAPPED_ADDRESS || kind == MAPPED_ADDRESS
  }

  /** Bytes up to the next multiple of four, as the code's formula has it. */
  function Padding(length: nat): nat {
    if length == 0 then 0 else if length < 4 then 4 - length else Padding(length - 4)
  }

  lemma {:induction false} PaddingFormula(length: nat)
    ensures Padding(length) == (4 - length % 4) % 4
  {
    if length >= 4 { PaddingFormula(length - 4); }
  }

  function MappedPort(data: seq<byte>, xored: bool): nat
    requires |data| >= 4
  {
    var port := GetU16(data, 2);
    if xored then Xor16(port, COOKIE_HIGH) else port
  }

  /** The value of a mapped-address attribute. */
  function ParseAddress(data: seq<byte>, xored: bool): StunResult {
    if |data| < 4 then Failed(AddressTooShort)
    else
      var port := MappedPort(data, xored);
      if data[1] == 1 then
        if |data| < 8 then Failed(AddressTooShort)
        else Mapped4(Printed(if xored then XorBytes(data[4..8], COOKIE) else data[4..8], port))
      else if data[1] == 2 then
        if |data| < 20 then Failed(AddressTooShort)
        else Mapped6(if xored then XorBytes(data[4..20], COOKIE) else data[4..20], port)
      else Failed(UnknownFamily)
  }

  /** The first mapped attribute from `offset` on whose header starts before `end` and whose value
      fits the received bytes. */
  function FirstMapped(r: seq<byte>, offset: nat, end: nat): Option<Attribute>
    decreases if offset < end then end - offset else 0
  {
    if offset >= end || offset + 4 > |r| then None
    else
      var kind, length := GetU16(r, offset), GetU16(r, offset + 2);
      var start := offset + 4;
      if start + length > |r| then None
      else if IsMapped(kind) then Some(Attribute(kind, r[start..start + length]))
      else FirstMapped(r, start + length + Padding(length), end)
  }

  function Interpret(a: Option<Attribute>): StunResult {
    match a
    case None => Failed(NoAddress)
    case Some(attr) => ParseAddress(attr.value, attr.kind == XOR_MAPPED_ADDRESS)
  }

  /** The parser, with the position of the transaction id left open. */
  function Parse(r: seq<byte>, tid: seq<byte>, position: nat): StunResult
    requires |tid| == TID && position + TID <= HEADER
  {
    if |r| < HEADER then Failed(TooShort)
    else if GetU16(r, 0) != BINDING_SUCCESS then Failed(WrongType)
    else if r[position..position + TID] != tid then Failed(WrongTransaction)
    else Interpret(FirstMapped(r, HEADER, HEADER + GetU16(r, 2)))
  }

  // ── The code ────────────────────────────────────────────────────────────────

  method BuildBindingRequest(tid: seq<byte>) returns (packet: seq<byte>)
    requires |tid| == TID
    ensures |packet| == 20
    ensures packet[..8] == [0, 1, 0, 0, 0x21, 0x12, 0xA4, 0x42]
    ensures packet[8..] == tid
  {
    packet := [0, 1];
    packet := packet + [0, 0];
    packet := packet + COOKIE;
    packet := packet + tid;
  }

  /** The loop that decodes the address bytes in place: only the first four are touched, for
      both families. */
  method DecodeInPlace(ip: array<byte>)
    requires ip.Length >= 4
    modifies ip
    ensures ip[..] == XorBytes(old(ip[..]), COOKIE)
  {
    ghost var was := ip[..];
    for i := 0 to 4
      invariant forall k :: 0 <= k < i ==> ip[k] == Xor8(was[k], COOKIE[k])
      invariant forall k :: i <= k < ip.Length ==> ip[k] == was[k]
    {
      ip[i] := Xor8(ip[i], COOKIE[i]);
    }
  }

  method ParseMappedAddress(data: seq<byte>, xored: bool) returns (r: StunResult)
    ensures r == ParseAddress(data, xored)
  {
    if |data| < 4 {
      return Failed(AddressTooShort);
    }
    var family := data[1];
    var port := GetU16(data, 2);
    if xored {
      port := Xor16(port, COOKIE_HIGH);
    }
    if family == 1 {
      if |data| < 8 {
        return Failed(AddressTooShort);
      }
      var ip := new byte[4](i requires 0 <= i < 4 => data[4 + i]);
      assert ip[..] == data[4..8];
      if xored {
        DecodeInPlace(ip);
      }
      return Mapped4(Printed(ip[..], port));
    } else if family == 2 {
      if |data| < 20 {
        return Failed(AddressTooShort);
      }
      var ip := new byte[16](i requires 0 <= i < 16 => data[4 + i]);
      assert ip[..] == data[4..20];
      if xored {
        DecodeInPlace(ip);
      }
      return Mapped6(ip[..], port);
    }
    return Failed(UnknownFamily);
  }

  method ParseBindingResponse(response: seq<byte>, expectedTid: seq<byte>) returns (r: StunResult)
    requires |expectedTid| == TID
    ensures r == Parse(response, expectedTid, TID_AS_WRITTEN)
  {
    if |response| < HEADER {
      return Failed(TooShort);
    }
    if GetU16(response, 0) != BINDING_SUCCESS {
      return Failed(WrongType);
    }
    if response[4..16] != expectedTid {
      return Failed(WrongTransaction);
    }
    var offset := HEADER;
    var end := HEADER + GetU16(response, 2);
    ghost var found := FirstMapped(response, HEADER, end);
    while offset < end
      invariant found == FirstMapped(response, offset, end)
      decreases end - offset
    {
      if offset + 4 > |response| {
        break;
      }
      var kind := GetU16(response, offset);
      var length := GetU16(response, offset + 2);
      offset := offset + 4;
      if offset + length > |response| {
        break;
      }
      if IsMapped(kind) {
        r := ParseMappedAddress(response[offset..offset + length], kind == XOR_MAPPED_ADDRESS);
        return;
      }
      offset := offset + length;
      offset := offset + Padding(length);
    }
    return Failed(NoAddress);
  }

  // ── What the parser means ───────────────────────────────────────────────────

  /** On any byte string: an attribute whose header starts before `end` and whose value was received. */
  predicate Readable(r: seq<byte>, at: nat, end: nat) {
    at < end && at + 4 <= |r| && at + 4 + GetU16(r, at + 2) <= |r|
  }

  function AttributeAt(r: seq<byte>, at: nat, end: nat): Attribute
    requires Readable(r, at, end)
  {
    Attribute(GetU16(r, at), r[at + 4..at + 4 + GetU16(r, at + 2)])
  }

  /** An attribute that is passed over, and where the one after it starts. */
  predicate Passed(r: seq<byte>, at: nat, next: nat, end: nat) {
    && Readable(r, at, end)
    && var a := AttributeAt(r, at, end);
       !IsMapped(a.kind) && next == at + 4 + |a.value| + Padding(|a.value|)
  }

  /** Positions of attributes following one another from `offset` on, all passed over but the last,
      which is `a`. */
  predicate Chain(r: seq<byte>, offset: nat, end: nat, places: seq<nat>, a: Attribute) {
    && places != [] && places[0] == offset
    && (forall i :: 0 <= i < |places| - 1 ==> Passed(r, places[i], places[i + 1], end))
    && Readable(r, places[|places| - 1], end) && AttributeAt(r, places[|places| - 1], end) == a && IsMapped(a.kind)
  }

  lemma {:induction false} FoundByChain(r: seq<byte>, offset: nat, end: nat) returns (places: seq<nat>)
    requires FirstMapped(r, offset, end).Some?
    ensures Chain(r, offset, end, places, FirstMapped(r, offset, end).value)
    decreases if offset < end then end - offset else 0
  {
    var here := AttributeAt(r, offset, end);
    if IsMapped(here.kind) {
      places := [offset];
    } else {
      var next := offset + 4 + |here.value| + Padding(|here.value|);
      var rest := FoundByChain(r, next, end);
      places := [offset] + rest;
      assert forall i :: 1 <= i < |places| ==> places[i] == rest[i - 1];
    }
  }

  lemma {:induction false} ChainIsFound(r: seq<byte>, offset: nat, end: nat, places: seq<nat>, a: Attribute)
    requires Chain(r, offset, end, places, a)
    ensures FirstMapped(r, offset, end) == Some(a)
    decreases |places|
  {
    if |places| > 1 {
      assert Passed(r, places[0], places[1], end);
      ChainIsFound(r, places[1], end, places[1..], a);
    }
  }

  /** Whatever the bytes are, the walk answers with an attribute exactly when a chain of readable,
      unmapped attributes leads to it and it is itself mapped. */
  lemma FirstMappedIsChainEnd(r: seq<byte>, offset: nat, end: nat, a: Attribute)
    ensures FirstMapped(r, offset, end) == Some(a) <==> exists places :: Chain(r, offset, end, places, a)
  {
    if FirstMapped(r, offset, end) == Some(a) {
      var places := FoundByChain(r, offset, end);
    }
    forall places | Chain(r, offset, end, places, a) ensures FirstMapped(r, offset, end) == Some(a) {
      ChainIsFound(r, offset, end, places, a);
    }
  }

  /** A well-formed attribute list, as a server writes it: type, length, value, padding. */
  predicate WellFormed(attrs: seq<Attribute>) {
    forall i :: 0 <= i < |attrs| ==> attrs[i].kind < U16_LIMIT && |attrs[i].value| < U16_LIMIT
  }

  function EncodeAttribute(a: Attribute): seq<byte> {
    PutU16(a.kind) + PutU16(|a.value|) + a.value + seq(Padding(|a.value|), _ => 0)
  }

  function EncodeAttributes(attrs: seq<Attribute>): seq<byte> {
    if attrs == [] then [] else EncodeAttribute(attrs[0]) + EncodeAttributes(attrs[1..])
  }

  /** Index of the first mapped attribute, or the length of the list. */
  function MappedIndex(attrs: seq<Attribute>): (i: nat)
    ensures i <= |attrs|
    ensures i < |attrs| ==> IsMapped(attrs[i].kind)
    ensures forall j :: 0 <= j < i ==> !IsMapped(attrs[j].kind)
  {
    if attrs == [] || IsMapped(attrs[0].kind) then 0 else 1 + MappedIndex(attrs[1..])
  }

  lemma AttributeHeader(before: seq<byte>, a: Attribute, after: seq<byte>)
    requires a.kind < U16_LIMIT && |a.value| < U16_LIMIT
    ensures var r := before + EncodeAttribute(a) + after;
            && GetU16(r, |before|) == a.kind
            && GetU16(r, |before| + 2) == |a.value|
            && r[|before| + 4..|before| + 4 + |a.value|] == a.value
  {
    var r := before + EncodeAttribute(a) + after;
    var tail := a.value + seq(Padding(|a.value|), _ => 0) + after;
    U16RoundTrip(a.kind, before, PutU16(|a.value|) + tail);
    assert r == before + PutU16(a.kind) + (PutU16(|a.value|) + tail);
    U16RoundTrip(|a.value|, before + PutU16(a.kind), tail);
    assert r == before + PutU16(a.kind) + PutU16(|a.value|) + tail;
  }

  /** The first mapped attribute of a list of which only `cut` bytes arrived. */
  function Found(attrs: seq<Attribute>, cut: nat): Option<Attribute> {
    if attrs == [] || cut < 4 + |attrs[0].value| then None
    else if IsMapped(attrs[0].kind) then Some(attrs[0])
    else if cut < |EncodeAttribute(attrs[0])| then None
    else Found(attrs[1..], cut - |EncodeAttribute(attrs[0])|)
  }

  /** It is the first mapped one of the whole list, provided its value arrived in full. */
  lemma {:induction false} FoundMeaning(attrs: seq<Attribute>, cut: nat)
    ensures var i := MappedIndex(attrs);
            Found(attrs, cut)
            == if i < |attrs| && |EncodeAttributes(attrs[..i])| + 4 + |attrs[i].value| <= cut then Some(attrs[i])
               else None
  {
    var i := MappedIndex(attrs);
    if attrs == [] {
    } else if i == 0 {
      assert attrs[..0] == [];
    } else {
      assert attrs[..i][0] == attrs[0] && attrs[..i][1..] == attrs[1..][..i - 1];
      var e := |EncodeAttribute(attrs[0])|;
      if e <= cut {
        FoundMeaning(attrs[1..], cut - e);
      }
    }
  }

  lemma WalkStep(r: seq<byte>, offset: nat, a: Attribute, tail: seq<byte>, end: nat)
    requires a.kind < U16_LIMIT && |a.value| < U16_LIMIT
    requires offset <= |r| && r[offset..] <= EncodeAttribute(a) + tail && offset < end
    ensures FirstMapped(r, offset, end)
            == if |r| < offset + 4 + |a.value| then None
               else if IsMapped(a.kind) then Some(a)
               else FirstMapped(r, offset + |EncodeAttribute(a)|, end)
  {
    var whole := r[..offset] + EncodeAttribute(a) + tail;
    AttributeHeader(r[..offset], a, tail);
    assert r == r[..offset] + r[offset..];
    assert whole == r[..offset] + (EncodeAttribute(a) + tail);
    if offset + 4 <= |r| {
      PrefixFields(r, whole, offset);
      if offset + 4 + |a.value| <= |r| {
        PrefixSlice(r, whole, offset + 4, offset + 4 + |a.value|);
      }
    }
  }

  lemma PrefixFields(r: seq<byte>, whole: seq<byte>, at: nat)
    requires r <= whole && at + 4 <= |r|
    ensures GetU16(r, at) == GetU16(whole, at) && GetU16(r, at + 2) == GetU16(whole, at + 2)
  {
  }

  lemma PrefixSlice(r: seq<byte>, whole: seq<byte>, from: nat, to: nat)
    requires r <= whole && from <= to <= |r|
    ensures r[from..to] == whole[from..to]
  {
  }

  lemma RestOfList(r: seq<byte>, offset: nat, e: seq<byte>, tail: seq<byte>)
    requires offset + |e| <= |r| && r[offset..] <= e + tail
    ensures r[offset + |e|..] <= tail
  {
    assert r[offset + |e|..] == r[offset..][|e|..];
    assert tail == (e + tail)[|e|..];
  }

  lemma FoundStep(a: Attribute, rest: seq<Attribute>, cut: nat)
    ensures Found([a] + rest, cut)
            == if cut < 4 + |a.value| then None
               else if IsMapped(a.kind) then Some(a)
               else if cut < |EncodeAttribute(a)| then None
               else Found(rest, cut - |EncodeAttribute(a)|)
  {
    assert ([a] + rest)[1..] == rest;
  }

  /** An attribute was cut: nothing behind it arrived. */
  lemma NothingBehind(r: seq<byte>, offset: nat, end: nat)
    requires |r| < offset + 4
    ensures FirstMapped(r, offset, end) == None
  {
  }

  /** Walking an encoded list, however much of its end is missing, finds the first mapped attribute
      if its value arrived in full and nothing otherwise. */
  lemma {:induction false} WalkFindsFirst(r: seq<byte>, offset: nat, attrs: seq<Attribute>, end: nat)
    requires WellFormed(attrs) && offset <= |r| && r[offset..] <= EncodeAttributes(attrs)
    requires end == offset + |EncodeAttributes(attrs)|
    ensures FirstMapped(r, offset, end) == Found(attrs, |r| - offset)
    decreases |attrs|
  {
    if attrs != [] {
      var a, rest := attrs[0], attrs[1..];
      var tail, next := EncodeAttributes(rest), offset + |EncodeAttribute(a)|;
      assert attrs == [a] + rest && EncodeAttributes(attrs) == EncodeAttribute(a) + tail;
      if next <= |r| {
        RestOfList(r, offset, EncodeAttribute(a), tail);
        WalkFindsFirst(r, next, rest, end);
      }
      WalkMeetsList(r, offset, a, rest, end);
    }
  }

  lemma WalkMeetsList(r: seq<byte>, offset: nat, a: Attribute, rest: seq<Attribute>, end: nat)
    requires a.kind < U16_LIMIT && |a.value| < U16_LIMIT
    requires offset <= |r| && r[offset..] <= EncodeAttribute(a) + EncodeAttributes(rest) && offset < end
    requires var next := offset + |EncodeAttribute(a)|;
             next <= |r| ==> FirstMapped(r, next, end) == Found(rest, |r| - next)
    ensures FirstMapped(r, offset, end) == Found([a] + rest, |r| - offset)
  {
    var next := offset + |EncodeAttribute(a)|;
    WalkStep(r, offset, a, EncodeAttributes(rest), end);
    FoundStep(a, rest, |r| - offset);
    if |r| < next {
      NothingBehind(r, next, end);
    }
  }

  function ResponseHead(tid: seq<byte>, length: nat): (h: seq<byte>)
    requires |tid| == TID
    ensures |h| == HEADER
  {
    PutU16(BINDING_SUCCESS) + PutU16(length) + COOKIE + tid
  }

  function Response(tid: seq<byte>, attrs: seq<Attribute>): seq<byte>
    requires |tid| == TID
  {
    ResponseHead(tid, |EncodeAttributes(attrs)|) + EncodeAttributes(attrs)
  }

  predicate CookieThrice(tid: seq<byte>) {
    tid == COOKIE + COOKIE + COOKIE
  }

  lemma HeadFields(tid: seq<byte>, length: nat)
    requires |tid| == TID && length < U16_LIMIT
    ensures var h := ResponseHead(tid, length);
            && GetU16(h, 0) == BINDING_SUCCESS
            && GetU16(h, 2) == length
            && h[TID_DOCUMENTED..] == tid
            && h[TID_AS_WRITTEN..TID_AS_WRITTEN + TID] == COOKIE + tid[..8]
  {
    var kind := PutU16(BINDING_SUCCESS);
    U16RoundTrip(BINDING_SUCCESS, [], PutU16(length) + (COOKIE + tid));
    assert ResponseHead(tid, length) == [] + kind + (PutU16(length) + (COOKIE + tid));
    U16RoundTrip(length, kind, COOKIE + tid);
    assert ResponseHead(tid, length) == kind + PutU16(length) + (COOKIE + tid);
  }

  lemma ShiftedId(tid: seq<byte>)
    requires |tid| == TID
    ensures COOKIE + tid[..8] == tid <==> CookieThrice(tid)
  {
    if COOKIE + tid[..8] == tid {
      assert tid[..4] == COOKIE;
      assert tid[4..8] == (COOKIE + tid[..8])[4..8] == tid[..4];
      assert tid[8..] == (COOKIE + tid[..8])[8..] == tid[4..8];
      assert tid == tid[..4] + tid[4..8] + tid[8..];
    }
  }

  lemma ResponseFields(tid: seq<byte>, body: seq<byte>, cut: nat)
    requires |tid| == TID && cut <= |body| < U16_LIMIT
    ensures var r := ResponseHead(tid, |body|) + body[..cut];
            && GetU16(r, 0) == BINDING_SUCCESS && GetU16(r, 2) == |body|
            && r[TID_DOCUMENTED..TID_DOCUMENTED + TID] == tid
            && r[TID_AS_WRITTEN..TID_AS_WRITTEN + TID] == COOKIE + tid[..8]
            && r[HEADER..] == body[..cut]
  {
    var h := ResponseHead(tid, |body|);
    var r := h + body[..cut];
    HeadFields(tid, |body|);
    PrefixFields(h, r, 0);
    PrefixSlice(h, r, TID_DOCUMENTED, HEADER);
    PrefixSlice(h, r, TID_AS_WRITTEN, TID_AS_WRITTEN + TID);
    assert h[TID_DOCUMENTED..HEADER] == h[TID_DOCUMENTED..];
  }

  /** A response laid out as the RFC says, possibly cut short by the receive buffer: with the
      documented transaction id position the parser answers for the first mapped attribute; as
      written it does so only if the id is the magic cookie three times over. */
  lemma ResponseParses(tid: seq<byte>, attrs: seq<Attribute>, cut: nat)
    requires |tid| == TID && WellFormed(attrs) && cut <= |EncodeAttributes(attrs)| < U16_LIMIT
    ensures var r := Response(tid, attrs)[..HEADER + cut];
            && Parse(r, tid, TID_DOCUMENTED) == Interpret(Found(attrs, cut))
            && Parse(r, tid, TID_AS_WRITTEN)
               == if CookieThrice(tid) then Interpret(Found(attrs, cut)) else Failed(WrongTransaction)
  {
    var body := EncodeAttributes(attrs);
    var r := Response(tid, attrs)[..HEADER + cut];
    assert r == ResponseHead(tid, |body|) + body[..cut];
    ResponseFields(tid, body, cut);
    WalkFindsFirst(r, HEADER, attrs, HEADER + |body|);
    ShiftedId(tid);
  }

  // ── Address values ──────────────────────────────────────────────────────────

  /** An IPv4 address value, sections 14.1 and 14.2. */
  function Value4(reserved: byte, ip: seq<byte>, port: nat, xored: bool): seq<byte>
    requires |ip| == 4 && port < U16_LIMIT
  {
    if xored then [reserved, 1] + PutU16(Xor16(port, COOKIE_HIGH)) + XorBytes(ip, COOKIE)
    else [reserved, 1] + PutU16(port) + ip
  }

  /** An XOR-mapped IPv6 address value, section 14.2: all sixteen bytes are masked. */
  function XoredValue6(reserved: byte, ip: seq<byte>, port: nat, tid: seq<byte>): seq<byte>
    requires |ip| == 16 && port < U16_LIMIT && |tid| == TID
  {
    [reserved, 2] + PutU16(Xor16(port, COOKIE_HIGH)) + XorBytes(ip, COOKIE + tid)
  }

  lemma PortXorTwice(port: nat)
    requires port < U16_LIMIT
    ensures Xor16(Xor16(port, COOKIE_HIGH), COOKIE_HIGH) == port
  {
    assert Pow2(8) == 0x100;
    assert Pow2(16) == 0x1_0000;
    XorTwice(16, port, COOKIE_HIGH);
  }

  /** The fields of an address value: `field` is the port as sent. */
  lemma ValueFields(reserved: byte, family: byte, field: nat, ip: seq<byte>, extra: seq<byte>)
    requires field < U16_LIMIT
    ensures var v := [reserved, family] + PutU16(field) + ip + extra;
            v[1] == family && GetU16(v, 2) == field && v[4..4 + |ip|] == ip
  {
    U16RoundTrip(field, [reserved, family], ip + extra);
    assert [reserved, family] + PutU16(field) + ip + extra == [reserved, family] + PutU16(field) + (ip + extra);
  }

  /** An IPv4 address comes back, with its port, whichever of the two attributes carries it. */
  lemma Address4RoundTrip(reserved: byte, ip: seq<byte>, port: nat, xored: bool, extra: seq<byte>)
    requires |ip| == 4 && port < U16_LIMIT
    ensures ParseAddress(Value4(reserved, ip, port, xored) + extra, xored) == Mapped4(Printed(ip, port))
  {
    if xored {
      PortXorTwice(port);
      ValueFields(reserved, 1, Xor16(port, COOKIE_HIGH), XorBytes(ip, COOKIE), extra);
      XorBytesTwice(ip, COOKIE);
    } else {
      ValueFields(reserved, 1, port, ip, extra);
    }
  }

  /** An XOR-mapped IPv6 address comes back exactly when the transaction id is all zero: the code
      masks with the cookie alone. */
  lemma Address6RoundTrip(reserved: byte, ip: seq<byte>, port: nat, tid: seq<byte>)
    requires |ip| == 16 && port < U16_LIMIT && |tid| == TID
    ensures ParseAddress(XoredValue6(reserved, ip, port, tid), true) == Mapped6(ip, port)
            <==> forall i :: 0 <= i < TID ==> tid[i] == 0
  {
    var value := XoredValue6(reserved, ip, port, tid);
    var masked := XorBytes(ip, COOKIE + tid);
    PortXorTwice(port);
    ValueFields(reserved, 2, Xor16(port, COOKIE_HIGH), masked, []);
    assert value + [] == value;
    var got := XorBytes(masked, COOKIE);
    assert Pow2(8) == 0x100;
    forall i | 0 <= i < 4 ensures got[i] == ip[i] {
      XorTwice(8, ip[i], COOKIE[i]);
    }
    forall i | 0 <= i < TID ensures got[4 + i] == ip[4 + i] <==> tid[i] == 0 {
      XorUnchanged(8, ip[4 + i], tid[i]);
      assert (COOKIE + tid)[4 + i] == tid[i];
    }
    if forall i :: 0 <= i < TID ==> tid[i] == 0 {
      forall k | 0 <= k < 16 ensures got[k] == ip[k] {
        if k >= 4 { assert tid[k - 4] == 0; }
      }
      assert got == ip;
    } else {
      var i :| 0 <= i < TID && tid[i] != 0;
      assert got[4 + i] != ip[4 + i];
    }
  }

  /** End to end for IPv4: the first mapped attribute's address is what the caller reads. */
  lemma {:induction false} StunRoundTrip(tid: seq<byte>, attrs: seq<Attribute>, cut: nat, reserved: byte,
                                         ip: seq<byte>, port: nat, xored: bool)
    requires |tid| == TID && WellFormed(attrs) && cut <= |EncodeAttributes(attrs)| < U16_LIMIT
    requires |ip| == 4 && port < U16_LIMIT
    requires Found(attrs, cut)
             == Some(Attribute(if xored then XOR_MAPPED_ADDRESS else MAPPED_ADDRESS, Value4(reserved, ip, port, xored)))
    ensures Parse(Response(tid, attrs)[..HEADER + cut], tid, TID_DOCUMENTED) == Mapped4(Printed(ip, port))
  {
    ResponseParses(tid, attrs, cut);
    Address4RoundTrip(reserved, ip, port, xored, []);
    assert Value4(reserved, ip, port, xored) + [] == Value4(reserved, ip, port, xored);
  }
}
