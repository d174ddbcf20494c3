/** The byte encodings the codecs are written on: little-endian base-128 numbers and length-prefixed bytes. */
module Lib0 {
  import opened Base

  type Byte = b: nat | b < 256
  type Bytes = seq<Byte>

  function VarUint(n: nat): (bytes: Bytes)
    ensures |bytes| > 0
  {
    if n < 128 then [n] else [128 + n % 128] + VarUint(n / 128)
  }

  /** The number at the front and what follows it; None at the end of the array. */
  function ReadVarUint(bytes: Bytes): (r: Option<(nat, Bytes)>)
    ensures r.Some? ==> |r.value.1| < |bytes|
  {
    if bytes == [] then None
    else if bytes[0] < 128 then Some((bytes[0], bytes[1..]))
    else
      match ReadVarUint(bytes[1..])
      case None => None
      case Some((n, rest)) => Some((bytes[0] - 128 + 128 * n, rest))
  }

  lemma {:induction false} VarUintRoundTrip(n: nat, rest: Bytes)
    ensures ReadVarUint(VarUint(n) + rest) == Some((n, rest))
  {
    if n < 128 {
      assert ([n] + rest)[1..] == rest;
    } else {
      VarUintRoundTrip(n / 128, rest);
      assert (VarUint(n) + rest)[1..] == VarUint(n / 128) + rest;
    }
  }

  /** Byte arrays; and strings, taken as their UTF-8 bytes. */
  function VarBytes(data: Bytes): Bytes {
    VarUint(|data|) + data
  }

  function ReadVarBytes(bytes: Bytes): (r: Option<(Bytes, Bytes)>)
    ensures r.Some? ==> |r.value.1| < |bytes|
  {
    match ReadVarUint(bytes)
    case None => None
    case Some((n, rest)) => if n <= |rest| then Some((rest[..n], rest[n..])) else None
  }

  lemma VarBytesRoundTrip(data: Bytes, rest: Bytes)
    ensures ReadVarBytes(VarBytes(data) + rest) == Some((data, rest))
  {
    VarUintRoundTrip(|data|, data + rest);
    assert VarBytes(data) + rest == VarUint(|data|) + (data + rest);
    assert (data + rest)[..|data|] == data && (data + rest)[|data|..] == rest;
  }

  const UINT32: nat := 0x1_0000_0000

  /** The `i`-th byte of a number, from the least significant. */
  function Digit(n: nat, i: nat): Byte {
    if i == 0 then n % 256 else Digit(n / 256, i - 1)
  }

  /** Four bytes, most significant first; a larger number is truncated. */
  function Uint32(n: nat): Bytes {
    seq(4, i requires 0 <= i < 4 => Digit(n, 3 - i))
  }

  function Value(a: nat, b: nat, c: nat, d: nat): nat {
    ((a * 256 + b) * 256 + c) * 256 + d
  }

  function ReadUint32(bytes: Bytes): Option<(nat, Bytes)> {
    if |bytes| < 4 then None else Some((Value(bytes[0], bytes[1], bytes[2], bytes[3]), bytes[4..]))
  }

  lemma Uint32RoundTrip(n: nat, rest: Bytes)
    ensures ReadUint32(Uint32(n) + rest) == Some((n % UINT32, rest))
  {
    Digits(n);
    var bytes := Uint32(n) + rest;
    assert bytes[0] == Uint32(n)[0] && bytes[1] == Uint32(n)[1] && bytes[2] == Uint32(n)[2] && bytes[3] == Uint32(n)[3];
    assert bytes[4..] == rest;
  }

  lemma Digits(n: nat)
    ensures n % UINT32 == Value(Digit(n, 3), Digit(n, 2), Digit(n, 1), Digit(n, 0))
  {
    var q1 := n / 256;
    var q2 := q1 / 256;
    var q3 := q2 / 256;
    assert Digit(n, 1) == Digit(q1, 0) == q1 % 256;
    assert Digit(n, 2) == Digit(q1, 1) == Digit(q2, 0) == q2 % 256;
    assert Digit(n, 3) == Digit(q1, 2) == Digit(q2, 1) == Digit(q3, 0) == q3 % 256;
    Remainder(n, q3 / 256, Value(q3 % 256, q2 % 256, q1 % 256, n % 256));
  }

  lemma Remainder(n: nat, q: nat, r: nat)
    requires n == q * UINT32 + r && r < UINT32
    ensures n % UINT32 == r
  {
  }
}
