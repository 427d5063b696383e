/** Bytes and the big-endian integer fields shared by the framing and STUN codecs. */
module Bytes {

  type byte = x: int | 0 <= x < 256

  const U16_LIMIT := 0x1_0000
  const U32_LIMIT := 0x1_0000_0000

  /** Big-endian 16-bit field; wider values lose their high bits, as an `as u16` cast does. */
  function PutU16(n: nat): (b: seq<byte>)
    ensures |b| == 2
  {
    [n / 0x100 % 0x100, n % 0x100]
  }

  function GetU16(b: seq<byte>, at: nat): (n: nat)
    requires at + 2 <= |b|
    ensures n < U16_LIMIT
  {
    b[at] as nat * 0x100 + b[at + 1] as nat
  }

  /** Big-endian 32-bit field; wider values lose their high bits, as an `as u32` cast does. */
  function PutU32(n: nat): (b: seq<byte>)
    ensures |b| == 4
  {
    [n / 0x100_0000 % 0x100, n / 0x1_0000 % 0x100, n / 0x100 % 0x100, n % 0x100]
  }

  function GetU32(b: seq<byte>, at: nat): (n: nat)
    requires at + 4 <= |b|
    ensures n < U32_LIMIT
  {
    b[at] as nat * 0x100_0000 + b[at + 1] as nat * 0x1_0000 + b[at + 2] as nat * 0x100 + b[at + 3] as nat
  }

  lemma U16Digits(n: nat)
    ensures n / 0x100 % 0x100 * 0x100 + n % 0x100 == n % U16_LIMIT
  {
  }

  lemma U32Digits(n: nat)
    ensures n / 0x100_0000 % 0x100 * 0x100_0000 + n / 0x1_0000 % 0x100 * 0x1_0000
          + n / 0x100 % 0x100 * 0x100 + n % 0x100 == n % U32_LIMIT
  {
    U16Digits(n);
    U16Digits(n / U16_LIMIT);
  }

  lemma U16RoundTrip(n: nat, before: seq<byte>, after: seq<byte>)
    ensures GetU16(before + PutU16(n) + after, |before|) == n % U16_LIMIT
  {
    U16Digits(n);
    var field := PutU16(n);
    var b := before + field + after;
    assert b[|before|] == field[0];
    assert b[|before| + 1] == field[1];
  }

  lemma U32RoundTrip(n: nat, before: seq<byte>, after: seq<byte>)
    ensures GetU32(before + PutU32(n) + after, |before|) == n % U32_LIMIT
  {
    U32Digits(n);
    var field := PutU32(n);
    var b := before + field + after;
    forall k | 0 <= k < 4 ensures b[|before| + k] == field[k] {}
  }

  /** Concatenation of a list of byte strings. */
  function Flatten(parts: seq<seq<byte>>): seq<byte> {
    if parts == [] then [] else parts[0] + Flatten(parts[1..])
  }

  lemma {:induction false} FlattenAppend(a: seq<seq<byte>>, b: seq<seq<byte>>)
    ensures Flatten(a + b) == Flatten(a) + Flatten(b)
  {
    if a == [] {
      assert a + b == b;
    } else {
      assert (a + b)[0] == a[0] && (a + b)[1..] == a[1..] + b;
      FlattenAppend(a[1..], b);
    }
  }
}
